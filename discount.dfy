/** `src/components/Discount.tsx`: the card form's input sanitisers, the submit
    check and the e-mail gate that opens the card form. */
module Discount {
  import opened Wrappers
  import opened Seqs
  import opened Text

  /** Keeping the digits of a digit string changes nothing. */
  lemma DigitsOfDigits(s: string)
    requires AllDigits(s)
    ensures Digits(s) == s
  {
    FilterKeepsAll(s, IsDigit);
  }

  lemma DigitsAppend(a: string, b: string)
    ensures Digits(a + b) == Digits(a) + Digits(b)
  {
    FilterAppend(a, b, IsDigit);
  }

  /** Where the card number's `k`-th digit lands once grouped by four. */
  function Slot(k: nat): nat { k + k / 4 }

  /** Length of the grouped text of `n` digits. */
  function GroupedLength(n: nat): nat { if n == 0 then 0 else Slot(n - 1) + 1 }

  lemma SlotStep(i: nat)
    ensures Slot(i) == GroupedLength(i) + (if i > 0 && i % 4 == 0 then 1 else 0)
    ensures Slot(i) % 5 != 4
    ensures i > 0 && i % 4 == 0 ==> GroupedLength(i) % 5 == 4
  {
    var m, t := i / 4, i % 4;
    assert i == 4 * m + t;
    if i > 0 {
      if t == 0 {
        assert (i - 1) / 4 == m - 1;
      } else {
        assert (i - 1) / 4 == m;
      }
    }
    assert Slot(i) == 5 * m + t;
  }

  /** Spaces sit exactly at the positions 4, 9, 14, ... of `r`. */
  ghost predicate SpacedByFive(r: string) {
    forall j :: 0 <= j < |r| ==> (r[j] == ' ' <==> j % 5 == 4)
  }

  /** The `k`-th digit of `cleaned` sits at `Slot(k)` of `r`, for every `k < i`. */
  ghost predicate DigitsInSlots(r: string, cleaned: string, i: nat)
    requires i <= |cleaned|
  {
    forall k :: 0 <= k < i ==> Slot(k) < |r| && r[Slot(k)] == cleaned[k]
  }

  lemma SlotInRange(k: nat, i: nat)
    requires k < i
    ensures Slot(k) < GroupedLength(i)
  {
  }

  /** The grouped text `r` holds the first `i` digits of `cleaned`. */
  ghost predicate Grouped(r: string, cleaned: string, i: nat)
    requires i <= |cleaned|
  {
    && |r| == GroupedLength(i)
    && StripSpaces(r) == cleaned[..i]
    && DigitsInSlots(r, cleaned, i)
    && SpacedByFive(r)
  }

  /** One loop step: a space before a fifth, ninth, ... digit, then the digit. */
  function GroupStep(r: string, d: char, i: nat): string {
    (if i > 0 && i % 4 == 0 then r + [' '] else r) + [d]
  }

  lemma GroupStepLength(r: string, d: char, i: nat)
    requires |r| == GroupedLength(i)
    ensures |GroupStep(r, d, i)| == GroupedLength(i + 1)
  {
    SlotStep(i);
  }

  lemma GroupStepSpaced(r: string, d: char, i: nat)
    requires |r| == GroupedLength(i) && SpacedByFive(r) && d != ' '
    ensures SpacedByFive(GroupStep(r, d, i))
  {
    SlotStep(i);
    var mid := if i > 0 && i % 4 == 0 then r + " " else r;
    assert |mid| == Slot(i);
    forall j | 0 <= j < |mid|
      ensures mid[j] == ' ' <==> j % 5 == 4
    {
      if j < |r| { assert mid[j] == r[j]; }
    }
    var r' := mid + [d];
    forall j | 0 <= j < |r'|
      ensures r'[j] == ' ' <==> j % 5 == 4
    {
      if j < |mid| { assert r'[j] == mid[j]; }
    }
  }

  lemma GroupStepStrip(r: string, cleaned: string, i: nat)
    requires i < |cleaned| && StripSpaces(r) == cleaned[..i] && NotSpace(cleaned[i])
    ensures StripSpaces(GroupStep(r, cleaned[i], i)) == cleaned[..i + 1]
  {
    var mid := if i > 0 && i % 4 == 0 then r + [' '] else r;
    assert StripSpaces(mid) == StripSpaces(r) by {
      if i > 0 && i % 4 == 0 {
        FilterSnoc(r, ' ', NotSpace);
      }
    }
    assert GroupStep(r, cleaned[i], i) == mid + [cleaned[i]];
    FilterSnoc(mid, cleaned[i], NotSpace);
    assert cleaned[..i + 1] == cleaned[..i] + [cleaned[i]];
  }

  lemma GroupStepSlots(r: string, cleaned: string, i: nat)
    requires i < |cleaned| && |r| == GroupedLength(i) && DigitsInSlots(r, cleaned, i)
    ensures DigitsInSlots(GroupStep(r, cleaned[i], i), cleaned, i + 1)
  {
    SlotStep(i);
    GroupStepLength(r, cleaned[i], i);
    var r' := GroupStep(r, cleaned[i], i);
    forall k | 0 <= k < i + 1
      ensures Slot(k) < |r'| && r'[Slot(k)] == cleaned[k]
    {
      SlotInRange(k, i + 1);
      if k < i {
        SlotInRange(k, i);
        assert r'[Slot(k)] == r[Slot(k)];
      }
    }
  }

  /** One step of the loop keeps the grouping invariant. */
  lemma GroupStepKeeps(r: string, cleaned: string, i: nat)
    requires i < |cleaned| && AllDigits(cleaned) && Grouped(r, cleaned, i)
    ensures Grouped(GroupStep(r, cleaned[i], i), cleaned, i + 1)
  {
    assert IsDigit(cleaned[i]);
    GroupStepLength(r, cleaned[i], i);
    GroupStepSpaced(r, cleaned[i], i);
    GroupStepStrip(r, cleaned, i);
    GroupStepSlots(r, cleaned, i);
  }

  /** What a fully grouped text says about its characters. */
  lemma GroupedAll(r: string, cleaned: string)
    requires Grouped(r, cleaned, |cleaned|)
    ensures StripSpaces(r) == cleaned
    ensures forall k :: 0 <= k < |cleaned| ==> Slot(k) < |r| && r[Slot(k)] == cleaned[k]
    ensures r != [] ==> r[0] != ' ' && r[|r| - 1] != ' '
  {
    assert cleaned[..|cleaned|] == cleaned;
    if r != [] {
      var n := |cleaned|;
      assert Slot(n - 1) < |r|;
      assert r[Slot(n - 1)] == cleaned[n - 1];
      assert cleaned[n - 1] in StripSpaces(r);
      assert cleaned[0] in StripSpaces(r);
      assert r[Slot(0)] == cleaned[0];
    }
  }

  /** `formatCardNumber`: the input's digits, a space before every digit at a
      non-zero index divisible by 4. */
  method FormatCardNumber(value: string) returns (r: string)
    ensures StripSpaces(r) == Digits(value)
    ensures |r| == GroupedLength(|Digits(value)|)
    ensures forall k :: 0 <= k < |Digits(value)| ==> Slot(k) < |r| && r[Slot(k)] == Digits(value)[k]
    ensures SpacedByFive(r)
    ensures r != "" ==> r[0] != ' ' && r[|r| - 1] != ' '
  {
    var cleaned := Digits(value);
    r := "";
    var i := 0;
    assert cleaned[..0] == [];
    while i < |cleaned|
      invariant 0 <= i <= |cleaned|
      invariant Grouped(r, cleaned, i)
    {
      GroupStepKeeps(r, cleaned, i);
      r := GroupStep(r, cleaned[i], i);
      i := i + 1;
    }
    GroupedAll(r, cleaned);
  }

  /** `formatExpiry`: its first four digits, as "M", "MM" or "MM/Y..", with a month
      above 12 clamped to "12". */
  function FormatExpiry(value: string): (r: string)
    ensures |r| <= 5
    ensures AllDigits(r) || (|r| >= 4 && r[2] == '/' && AllDigits(r[..2]) && AllDigits(r[3..]))
  {
    ExpiryOf(Take(Digits(value), 4))
  }

  /** The formatting of the (at most four) digits `cleaned` that `formatExpiry` keeps. */
  function ExpiryOf(cleaned: string): (r: string)
    requires AllDigits(cleaned) && |cleaned| <= 4
    ensures |r| <= 5
    ensures AllDigits(r) || (|r| >= 4 && r[2] == '/' && AllDigits(r[..2]) && AllDigits(r[3..]))
  {
    if |cleaned| <= 2 then
      if cleaned == "" then cleaned
      else if ParseDigits(cleaned) > 12 then "12"
      else cleaned
    else
      var month := cleaned[..2];
      if ParseDigits(month) > 12 then "12"
      else
        var r := month + "/" + cleaned[2..];
        assert r[..2] == month && r[3..] == cleaned[2..];
        r
  }

  lemma ParseTwelve()
    ensures AllDigits("12") && ParseDigits("12") == 12
  {
    assert "12"[..1] == "1";
  }

  /** A digit string's slices are digit strings. */
  lemma DigitSlices(cleaned: string, k: nat)
    requires AllDigits(cleaned) && k <= |cleaned|
    ensures AllDigits(cleaned[..k]) && AllDigits(cleaned[k..])
  {
    assert forall j :: 0 <= j < k ==> cleaned[..k][j] == cleaned[j];
    assert forall j :: 0 <= j < |cleaned| - k ==> cleaned[k..][j] == cleaned[k + j];
  }

  /** The digits of "MM/Y.." are "MMY..". */
  lemma ExpiryDigits(cleaned: string)
    requires AllDigits(cleaned) && 2 < |cleaned|
    ensures Digits(cleaned[..2] + "/" + cleaned[2..]) == cleaned
  {
    var month := cleaned[..2];
    DigitSlices(cleaned, 2);
    DigitsAppend(month + "/", cleaned[2..]);
    DigitsAppend(month, "/");
    DigitsOfDigits(month);
    DigitsOfDigits(cleaned[2..]);
    assert Digits("/") == "";
    assert month + cleaned[2..] == cleaned;
  }

  lemma ExpiryOfKeepsDigits(cleaned: string)
    requires AllDigits(cleaned) && |cleaned| <= 4
    ensures ExpiryOf(cleaned) == "12" || Digits(ExpiryOf(cleaned)) == cleaned
  {
    if |cleaned| <= 2 {
      DigitsOfDigits(cleaned);
    } else if ParseDigits(cleaned[..2]) <= 12 {
      ExpiryDigits(cleaned);
    }
  }

  /** Apart from a clamped month, the formatted expiry carries exactly the first
      four digits of the input. */
  lemma FormatExpiryKeepsDigits(value: string)
    ensures FormatExpiry(value) == "12" || Digits(FormatExpiry(value)) == Take(Digits(value), 4)
  {
    ExpiryOfKeepsDigits(Take(Digits(value), 4));
  }

  /** The month is clamped exactly when its (up to two) leading digits exceed 12, so
      the result reads "12" only then or when "12" was typed. */
  lemma FormatExpiryClamps(value: string)
    ensures AllDigits(Take(Digits(value), 2))
    ensures FormatExpiry(value) == "12" <==>
      Take(Digits(value), 4) == "12"
      || (Take(Digits(value), 2) != "" && ParseDigits(Take(Digits(value), 2)) > 12)
  {
    var cleaned := Take(Digits(value), 4);
    var month := Take(Digits(value), 2);
    if |cleaned| <= 2 {
      assert month == cleaned;
    } else {
      assert month == cleaned[..2];
      DigitSlices(cleaned, 2);
    }
    ExpiryOfClamps(cleaned, month);
  }

  lemma ExpiryOfClamps(cleaned: string, month: string)
    requires AllDigits(cleaned) && |cleaned| <= 4
    requires month == if |cleaned| <= 2 then cleaned else cleaned[..2]
    ensures AllDigits(month)
    ensures ExpiryOf(cleaned) == "12" <==> cleaned == "12" || (month != "" && ParseDigits(month) > 12)
  {
    if |cleaned| > 2 {
      DigitSlices(cleaned, 2);
      var r := cleaned[..2] + "/" + cleaned[2..];
      assert r[2] == '/';
      assert "12"[1] == '2';
    }
  }

  /** Formatting a formatted expiry changes nothing. */
  lemma FormatExpiryIdempotent(value: string)
    ensures FormatExpiry(FormatExpiry(value)) == FormatExpiry(value)
  {
    var cleaned := Take(Digits(value), 4);
    var r := ExpiryOf(cleaned);
    ExpiryOfKeepsDigits(cleaned);
    if r == "12" {
      ParseTwelve();
      DigitsOfDigits("12");
    } else {
      assert Take(Digits(r), 4) == cleaned;
    }
  }

  /** A formatted expiry with all four digits reads "MM/YY" with a month of at most 12. */
  predicate IsFullExpiry(e: string) {
    |e| == 5 && e[2] == '/' && AllDigits(e[..2]) && AllDigits(e[3..]) && ParseDigits(e[..2]) <= 12
  }

  lemma FullExpiry(value: string)
    requires |Digits(FormatExpiry(value))| == 4
    ensures IsFullExpiry(FormatExpiry(value))
  {
    ExpiryOfFull(Take(Digits(value), 4));
  }

  /** Three typed digits with a valid month already read "MM/Y": the slash goes in
      as soon as a third digit arrives. */
  lemma PartialExpiry(value: string)
    requires |Digits(value)| == 3 && ParseDigits(Digits(value)[..2]) <= 12
    ensures FormatExpiry(value) == Digits(value)[..2] + "/" + Digits(value)[2..]
    ensures |FormatExpiry(value)| == 4
  {
    assert Take(Digits(value), 4) == Digits(value);
  }

  lemma ExpiryOfFull(cleaned: string)
    requires AllDigits(cleaned) && |cleaned| <= 4
    requires |Digits(ExpiryOf(cleaned))| == 4
    ensures IsFullExpiry(ExpiryOf(cleaned))
  {
    ParseTwelve();
    DigitsOfDigits("12");
    ExpiryOfKeepsDigits(cleaned);
    var r := ExpiryOf(cleaned);
    assert r != "12";
    var month := cleaned[..2];
    assert r == month + "/" + cleaned[2..];
    assert r[..2] == month && r[3..] == cleaned[2..];
    DigitSlices(cleaned, 2);
  }

  /** `expiry.split("/")` on a full expiry: month and `parseInt('20' + year)`. */
  function ExpiryMonthYear(e: string): (my: (nat, nat))
    requires IsFullExpiry(e)
    ensures my.0 <= 12
    ensures my.0 == ParseDigits(e[..2]) && my.1 == 2000 + ParseDigits(e[3..])
  {
    var year := "20" + e[3..];
    assert AllDigits(year);
    ParseCentury(e[3..]);
    (ParseDigits(e[..2]), ParseDigits(year))
  }

  /** `parseInt('20' + yy)` for two digits `yy` is `2000 + yy`. */
  lemma ParseCentury(yy: string)
    requires AllDigits(yy) && |yy| == 2
    ensures AllDigits("20" + yy) && ParseDigits("20" + yy) == 2000 + ParseDigits(yy)
  {
    var s := "20" + yy;
    assert s[..3][..2] == "20" && s[..3][2] == yy[0];
    assert s[..|s| - 1] == s[..3];
    assert yy[..1] == [yy[0]] && [yy[0]][..0] == [];
    assert ParseDigits("20") == 20 by {
      assert "20"[..1] == "2" && "2"[..0] == [];
    }
  }

  /** The CVV sanitiser: at most three digits. */
  function Cvv(value: string): (r: string)
    ensures AllDigits(r) && |r| <= 3
    ensures |r| == 3 <==> |Digits(value)| >= 3
    ensures |r| == if |Digits(value)| < 3 then |Digits(value)| else 3
    ensures r <= Digits(value)
  {
    Take(Digits(value), 3)
  }

  lemma CvvIdempotent(value: string)
    ensures Cvv(Cvv(value)) == Cvv(value)
  {
    DigitsOfDigits(Cvv(value));
  }

  /** The submit check of `handlePayment`. */
  predicate CardDetailsComplete(cardNumber: string, expiry: string, cvv: string) {
    |Digits(cardNumber)| == 16 && |Digits(expiry)| == 4 && |cvv| == 3
  }

  datatype PaymentOutcome =
    | InvalidCardDetails
    | LoginRequired
    | SendCard(cardNumber: string, expiryMonth: nat, expiryYear: nat, cvv: string)

  /** `handlePayment` for fields produced by the sanitisers. */
  function Payment(cardNumber: string, expiryInput: string, cvv: string, userId: Option<int>): (r: PaymentOutcome)
    ensures r.SendCard? <==> CardDetailsComplete(cardNumber, FormatExpiry(expiryInput), cvv) && userId.Some?
    ensures r.SendCard? ==> |r.cardNumber| == 16 && AllDigits(r.cardNumber) && r.expiryMonth <= 12 && |r.cvv| == 3
    ensures r.SendCard? ==>
      && IsFullExpiry(FormatExpiry(expiryInput))
      && r.cardNumber == Digits(cardNumber) && r.cvv == cvv
      && (r.expiryMonth, r.expiryYear) == ExpiryMonthYear(FormatExpiry(expiryInput))
  {
    var expiry := FormatExpiry(expiryInput);
    if !CardDetailsComplete(cardNumber, expiry, cvv) then InvalidCardDetails
    else if userId.None? then LoginRequired
    else
      FullExpiry(expiryInput);
      var my := ExpiryMonthYear(expiry);
      SendCard(Digits(cardNumber), my.0, my.1, cvv)
  }

  /** The e-mail gate and the claimed-discount banner. */
  class DiscountPage {
    /** `null` until `/users-email/:id` answers. */
    var loggedInEmail: Option<string>
    var discountClaimed: bool
    /** `null` until the first submit. */
    var isEmailValid: Option<bool>
    var showModal: bool

    constructor ()
      ensures loggedInEmail.None? && !discountClaimed && isEmailValid.None? && !showModal
    {
      loggedInEmail := None;
      discountClaimed := false;
      isEmailValid := None;
      showModal := false;
    }

    /** The answer of `/users-email/:id`: the banner replaces the form once the
        saved-card flag is 1. */
    method UserFetched(email: string, spDiscount: int)
      modifies this`loggedInEmail, this`discountClaimed
      ensures loggedInEmail == Some(email)
      ensures discountClaimed <==> spDiscount == 1
    {
      loggedInEmail := Some(email);
      discountClaimed := spDiscount == 1;
    }

    /** `handleEmailSubmit`: the card modal opens only for the logged-in user's exact
        address; before that address is known no input opens it. */
    method EmailSubmit(email: string)
      modifies this`isEmailValid, this`showModal
      ensures isEmailValid == Some(loggedInEmail == Some(email))
      ensures loggedInEmail == Some(email) ==> showModal
      ensures loggedInEmail != Some(email) ==> showModal == old(showModal)
    {
      if loggedInEmail == Some(email) {
        isEmailValid := Some(true);
        showModal := true;
      } else {
        isEmailValid := Some(false);
      }
    }

    /** The red hint under the form shows after a mismatching submit only. */
    predicate ShowsMismatchHint()
      reads this
    {
      isEmailValid == Some(false)
    }
  }
}
