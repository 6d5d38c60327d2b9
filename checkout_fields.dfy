/** The private helpers of PagSeguroPaymentProcessor that shape customer data before it
    goes into the payment request: space collapsing, digit extraction, the length caps
    the gateway imposes, the address number and complement, the phone split, the
    sender's full name and the item description. */
module CheckoutFields {
  import opened Common
  import opened Text

  // ---------------------------------------------------------------------------------
  // RemoveIncorrectSpaces

  /** Whether the loop of RemoveIncorrectSpaces copies s[i]: any character other than a
      space, and a space only when a next character exists and is not a space. */
  predicate KeepsAt(s: string, i: nat)
    requires i < |s|
  {
    s[i] != ' ' || (i + 1 < |s| && s[i + 1] != ' ')
  }

  /** What the loop has built once it has looked at s[..n]. */
  function KeptUpTo(s: string, n: nat): (r: string)
    requires n <= |s|
    ensures |r| <= n
  {
    if n == 0 then [] else KeptUpTo(s, n - 1) + (if KeepsAt(s, n - 1) then [s[n - 1]] else [])
  }

  /** RemoveIncorrectSpaces as a value: every run of spaces shrinks to its last space, a
      run at the very end disappears, and the outcome is trimmed. */
  function NormaliseSpaces(s: string): (r: string)
    ensures |r| <= |s|
    ensures r == [] || (!IsWhiteSpace(r[0]) && !IsWhiteSpace(r[|r| - 1]))
  {
    Trim(KeptUpTo(s, |s|))
  }

  predicate NoDoubleSpace(s: string) {
    forall i :: 0 <= i < |s| - 1 ==> !(s[i] == ' ' && s[i + 1] == ' ')
  }

  /** RemoveIncorrectSpaces: the loop over the characters, then Trim. */
  method RemoveIncorrectSpaces(s: string) returns (r: string)
    ensures r == NormaliseSpaces(s)
  {
    var str := "";
    for i := 0 to |s|
      invariant str == KeptUpTo(s, i)
    {
      if s[i] == ' ' {
        if i + 1 < |s| && s[i + 1] != ' ' {
          str := str + [s[i]];
        }
      } else {
        str := str + [s[i]];
      }
    }
    r := Trim(str);
  }

  /** The loop never copies two spaces in a row, and a space it copied last is followed
      in the input by a non-space it has yet to copy. */
  lemma {:induction false} KeptNoDoubleSpace(s: string, n: nat)
    requires n <= |s|
    ensures NoDoubleSpace(KeptUpTo(s, n))
    ensures var k := KeptUpTo(s, n); k != [] && k[|k| - 1] == ' ' ==> n < |s| && s[n] != ' '
  {
    if n > 0 {
      KeptNoDoubleSpace(s, n - 1);
      var p := KeptUpTo(s, n - 1);
      if KeepsAt(s, n - 1) {
        var k := p + [s[n - 1]];
        assert KeptUpTo(s, n) == k;
        forall i | 0 <= i < |k| - 1
          ensures !(k[i] == ' ' && k[i + 1] == ' ')
        {
          if i < |p| - 1 {
            assert k[i] == p[i] && k[i + 1] == p[i + 1];
          } else {
            assert k[i] == p[|p| - 1] && k[i + 1] == s[n - 1];
          }
        }
      }
    }
  }

  /** Slices keep the absence of double spaces. */
  lemma NoDoubleSpaceSlice(s: string, lo: nat, hi: nat)
    requires lo <= hi <= |s| && NoDoubleSpace(s)
    ensures NoDoubleSpace(s[lo..hi])
  {
    var t := s[lo..hi];
    forall i | 0 <= i < |t| - 1
      ensures !(t[i] == ' ' && t[i + 1] == ' ')
    {
      assert t[i] == s[lo + i] && t[i + 1] == s[lo + i + 1];
    }
  }

  /** The result of RemoveIncorrectSpaces has no two adjacent spaces and neither starts
      nor ends with white space. */
  lemma NormaliseSpacesShape(s: string)
    ensures NoDoubleSpace(NormaliseSpaces(s))
  {
    KeptNoDoubleSpace(s, |s|);
    TrimKeepsNoDoubleSpace(KeptUpTo(s, |s|));
  }

  lemma TrimKeepsNoDoubleSpace(t: string)
    requires NoDoubleSpace(t)
    ensures NoDoubleSpace(Trim(t))
  {
    var k := TrimIsSlice(t);
    NoDoubleSpaceSlice(t, k, k + |Trim(t)|);
  }

  /** On a text without double spaces that does not end in a space, the loop copies
      everything. */
  lemma {:induction false} KeptUpToCopies(t: string, n: nat)
    requires n <= |t| && NoDoubleSpace(t) && (t == [] || t[|t| - 1] != ' ')
    ensures KeptUpTo(t, n) == t[..n]
  {
    if n > 0 {
      KeptUpToCopies(t, n - 1);
      if t[n - 1] == ' ' {
        assert n < |t| && !(t[n - 1] == ' ' && t[n] == ' ');
      }
      assert KeepsAt(t, n - 1);
      assert t[..n] == t[..n - 1] + [t[n - 1]];
    }
  }

  /** A text that already has single spaces and no surrounding white space is left as
      it is. */
  lemma NormaliseSpacesKeepsNormal(t: string)
    requires NoDoubleSpace(t) && (t == [] || (!IsWhiteSpace(t[0]) && !IsWhiteSpace(t[|t| - 1])))
    ensures NormaliseSpaces(t) == t
  {
    KeptUpToCopies(t, |t|);
    assert t[..|t|] == t;
    TrimOfTrimmed(t);
  }

  /** Applying RemoveIncorrectSpaces twice gives what applying it once gives. */
  lemma NormaliseSpacesIdempotent(s: string)
    ensures NormaliseSpaces(NormaliseSpaces(s)) == NormaliseSpaces(s)
  {
    NormaliseSpacesShape(s);
    NormaliseSpacesKeepsNormal(NormaliseSpaces(s));
  }

  /** A character that is not white space is always copied, so a text that is not blank
      stays not blank. */
  lemma {:induction false} KeptKeepsNonBlank(s: string, n: nat)
    requires n <= |s|
    requires exists i :: 0 <= i < n && !IsWhiteSpace(s[i])
    ensures !IsBlank(KeptUpTo(s, n))
  {
    if !IsWhiteSpace(s[n - 1]) {
      assert KeepsAt(s, n - 1);
      var k := KeptUpTo(s, n);
      assert k[|k| - 1] == s[n - 1];
    } else {
      var i :| 0 <= i < n && !IsWhiteSpace(s[i]);
      assert i < n - 1;
      KeptKeepsNonBlank(s, n - 1);
      var p := KeptUpTo(s, n - 1);
      var j :| 0 <= j < |p| && !IsWhiteSpace(p[j]);
      assert KeptUpTo(s, n)[j] == p[j];
    }
  }

  /** RemoveIncorrectSpaces gives "" exactly for a blank text. */
  lemma NormaliseSpacesEmpty(s: string)
    ensures NormaliseSpaces(s) == [] <==> IsBlank(s)
  {
    if !IsBlank(s) {
      var i :| 0 <= i < |s| && !IsWhiteSpace(s[i]);
      KeptKeepsNonBlank(s, |s|);
    } else {
      assert IsBlank(KeptUpTo(s, |s|)) by {
        var k := KeptUpTo(s, |s|);
        KeptIsSubsequence(s, |s|);
        forall j | 0 <= j < |k| ensures IsWhiteSpace(k[j]) {
          var i := KeptSource(s, |s|, j);
        }
      }
    }
  }

  /** Every character the loop copied is a character of the input. */
  lemma {:induction false} KeptIsSubsequence(s: string, n: nat)
    requires n <= |s|
    ensures forall j :: 0 <= j < |KeptUpTo(s, n)| ==> KeptUpTo(s, n)[j] in s[..n]
  {
    if n > 0 {
      KeptIsSubsequence(s, n - 1);
      var p := KeptUpTo(s, n - 1);
      forall j | 0 <= j < |KeptUpTo(s, n)|
        ensures KeptUpTo(s, n)[j] in s[..n]
      {
        if j < |p| {
          assert KeptUpTo(s, n)[j] == p[j];
          assert p[j] in s[..n - 1];
          assert s[..n - 1] <= s[..n];
        } else {
          assert KeptUpTo(s, n)[j] == s[n - 1];
        }
      }
    }
  }

  lemma KeptSource(s: string, n: nat, j: nat) returns (i: nat)
    requires n <= |s| && j < |KeptUpTo(s, n)|
    ensures i < n && KeptUpTo(s, n)[j] == s[i]
  {
    KeptIsSubsequence(s, n);
    var c := KeptUpTo(s, n)[j];
    assert c in s[..n];
    var i' :| 0 <= i' < n && s[..n][i'] == c;
    i := i';
  }

  // ---------------------------------------------------------------------------------
  // GetOnlyNumbers, RetouchPostalCode

  /** The concatenation of all matches of \d+: the digits of s in order. */
  function OnlyDigits(s: string): (r: string)
    ensures |r| <= |s| && AllDigits(r)
    ensures AllDigits(s) ==> r == s
    ensures (forall i :: 0 <= i < |s| ==> !IsDigit(s[i])) ==> r == []
    decreases |s|
  {
    if s == [] then []
    else OnlyDigits(s[..|s| - 1]) + (if IsDigit(s[|s| - 1]) then [s[|s| - 1]] else [])
  }

  /** Extracting digits distributes over concatenation; with the two cases for a single
      character, this says OnlyDigits keeps exactly the digits, in order. */
  lemma {:induction false} OnlyDigitsAppend(a: string, b: string)
    ensures OnlyDigits(a + b) == OnlyDigits(a) + OnlyDigits(b)
    decreases |b|
  {
    if b != [] {
      var b' := b[..|b| - 1];
      var c := b[|b| - 1];
      assert (a + b)[..|a + b| - 1] == a + b';
      assert (a + b)[|a + b| - 1] == c;
      OnlyDigitsAppend(a, b');
      var tail := if IsDigit(c) then [c] else [];
      assert OnlyDigits(a + b) == OnlyDigits(a) + OnlyDigits(b') + tail;
      assert OnlyDigits(b) == OnlyDigits(b') + tail;
    } else {
      assert a + b == a;
    }
  }

  /** GetOnlyNumbers. The loop over the matches of \d+ is a loop over the characters
      here: appending every maximal run of digits, in order, appends every digit. */
  method GetOnlyNumbers(stringValue: string) returns (result: string)
    ensures result == OnlyDigits(stringValue)
  {
    result := "";
    for i := 0 to |stringValue|
      invariant result == OnlyDigits(stringValue[..i])
    {
      assert stringValue[..i + 1][..i] == stringValue[..i];
      if IsDigit(stringValue[i]) {
        result := result + [stringValue[i]];
      }
    }
    assert stringValue[..|stringValue|] == stringValue;
  }

  /** RetouchPostalCode: the digits, cut to the first eight. */
  function RetouchPostalCode(postalCode: string): (r: string)
    ensures AllDigits(r) && |r| <= 8
    ensures r <= OnlyDigits(postalCode)
    ensures |OnlyDigits(postalCode)| <= 8 ==> r == OnlyDigits(postalCode)
    ensures |OnlyDigits(postalCode)| > 8 ==> |r| == 8
  {
    var digits := OnlyDigits(postalCode);
    if |digits| > 8 then digits[..8] else digits
  }

  /** A written-out CEP such as "01310-100" becomes its eight digits. */
  lemma PostalCodeWithHyphen(first: string, last: string)
    requires |first| == 5 && |last| == 3 && AllDigits(first) && AllDigits(last)
    ensures RetouchPostalCode(first + "-" + last) == first + last
  {
    OnlyDigitsAppend(first + "-", last);
    OnlyDigitsAppend(first, "-");
  }

  // ---------------------------------------------------------------------------------
  // EnsureStreet, EnsureNeiborhood

  /** EnsureStreet: "" for a blank street; one longer than 80 characters keeps its
      first 79. */
  function EnsureStreet(street: string): (r: string)
    ensures r <= street && |r| <= 80
    ensures r == [] <==> IsBlank(street)
    ensures !IsBlank(street) && |street| <= 80 ==> r == street
    ensures !IsBlank(street) && |street| > 80 ==> |r| == 79
  {
    if IsBlank(street) then ""
    else if |street| > 80 then street[..79]
    else street
  }

  /** EnsureNeiborhood: "" for a blank neighbourhood; one longer than 60 characters
      keeps its first 59. */
  function EnsureNeiborhood(neiborhood: string): (r: string)
    ensures r <= neiborhood && |r| <= 60
    ensures r == [] <==> IsBlank(neiborhood)
    ensures !IsBlank(neiborhood) && |neiborhood| <= 60 ==> r == neiborhood
    ensures !IsBlank(neiborhood) && |neiborhood| > 60 ==> |r| == 59
  {
    if IsBlank(neiborhood) then ""
    else if |neiborhood| > 60 then neiborhood[..59]
    else neiborhood
  }

  // ---------------------------------------------------------------------------------
  // GetCustomNumberAndComplement

  /** An address attribute once parsed from the address's custom attributes: its name in
      the working language and the values stored for it. */
  datatype AddressAttribute = AddressAttribute(name: string, values: seq<string>)

  /** The letters compared by InvariantCultureIgnoreCase in the names used here: ASCII
      letters and 'ú' match their upper-case forms. */
  function FoldChar(c: char): char {
    if 'a' <= c <= 'z' then c - 'a' + 'A' else if c == 'ú' then 'Ú' else c
  }

  predicate SameIgnoringCase(a: string, b: string) {
    |a| == |b| && forall i :: 0 <= i < |a| ==> FoldChar(a[i]) == FoldChar(b[i])
  }

  /** The attribute that holds the street number ("Número" or "Numero", any case) when
      isNumber holds, the one that holds the complement ("Complemento") otherwise. */
  predicate Names(isNumber: bool, name: string) {
    if isNumber then SameIgnoringCase(name, "Número") || SameIgnoringCase(name, "Numero")
    else SameIgnoringCase(name, "Complemento")
  }

  datatype NumberAndComplement = NumberAndComplement(number: string, complement: string)

  function Field(p: NumberAndComplement, isNumber: bool): string {
    if isNumber then p.number else p.complement
  }

  /** One pass of the loop: a number attribute, then a complement attribute, takes its
      first value; taking [0] of an empty value list throws. */
  function Visit(acc: NumberAndComplement, a: AddressAttribute): Result<NumberAndComplement, Exception> {
    if Names(true, a.name) && a.values == [] then Err(ArgumentOutOfRangeException)
    else
      var afterNumber := if Names(true, a.name) then acc.(number := a.values[0]) else acc;
      if Names(false, a.name) && a.values == [] then Err(ArgumentOutOfRangeException)
      else Ok(if Names(false, a.name) then afterNumber.(complement := a.values[0]) else afterNumber)
  }

  /** The out parameters after the loop has visited attributes[..n]. */
  function Scan(attributes: seq<AddressAttribute>, n: nat): Result<NumberAndComplement, Exception>
    requires n <= |attributes|
  {
    if n == 0 then Ok(NumberAndComplement("", ""))
    else match Scan(attributes, n - 1)
      case Err(e) => Err(e)
      case Ok(acc) => Visit(acc, attributes[n - 1])
  }

  /** The defaults and the cut after the loop: a blank number or complement is "--", and
      a complement longer than 40 characters keeps its first 39. */
  function WithDefaults(found: NumberAndComplement): (r: NumberAndComplement)
    ensures !IsBlank(r.number) && r.complement != [] && |r.complement| <= 40
    ensures IsBlank(found.number) ==> r.number == "--"
    ensures !IsBlank(found.number) ==> r.number == found.number
    ensures IsBlank(found.complement) ==> r.complement == "--"
    ensures !IsBlank(found.complement) && |found.complement| <= 40 ==> r.complement == found.complement
    ensures !IsBlank(found.complement) && |found.complement| > 40 ==>
      |r.complement| == 39 && r.complement <= found.complement
  {
    var placeholder := "--";
    assert !IsWhiteSpace(placeholder[0]);
    var number := if IsBlank(found.number) then placeholder else found.number;
    var complement := if IsBlank(found.complement) then placeholder else found.complement;
    NumberAndComplement(number, if |complement| > 40 then complement[..39] else complement)
  }

  /** GetCustomNumberAndComplement as a value. Blank custom attributes skip the loop. */
  function NumberAndComplementOf(customAttributes: string, attributes: seq<AddressAttribute>): Result<NumberAndComplement, Exception> {
    if IsBlank(customAttributes) then Ok(WithDefaults(NumberAndComplement("", "")))
    else match Scan(attributes, |attributes|)
      case Err(e) => Err(e)
      case Ok(found) => Ok(WithDefaults(found))
  }

  /** Once the loop has thrown, later attributes do not matter. */
  lemma {:induction false} ScanErrorSticks(attributes: seq<AddressAttribute>, i: nat, n: nat)
    requires i <= n <= |attributes| && Scan(attributes, i).Err?
    ensures Scan(attributes, n) == Scan(attributes, i)
    decreases n - i
  {
    if n > i {
      ScanErrorSticks(attributes, i, n - 1);
    }
  }

  /** GetCustomNumberAndComplement, with the attributes already parsed and localized. */
  method GetCustomNumberAndComplement(customAttributes: string, attributes: seq<AddressAttribute>)
    returns (r: Result<NumberAndComplement, Exception>)
    ensures r == NumberAndComplementOf(customAttributes, attributes)
  {
    var number := "";
    var complement := "";
    if !IsBlank(customAttributes) {
      for i := 0 to |attributes|
        invariant Scan(attributes, i) == Ok(NumberAndComplement(number, complement))
      {
        var attribute := attributes[i];
        if Names(true, attribute.name) {
          if attribute.values == [] {
            ScanErrorSticks(attributes, i + 1, |attributes|);
            return Err(ArgumentOutOfRangeException);
          }
          number := attribute.values[0];
        }
        if Names(false, attribute.name) {
          if attribute.values == [] {
            ScanErrorSticks(attributes, i + 1, |attributes|);
            return Err(ArgumentOutOfRangeException);
          }
          complement := attribute.values[0];
        }
      }
    }
    if IsBlank(number) {
      number := "--";
    }
    if IsBlank(complement) {
      complement := "--";
    }
    if |complement| > 40 {
      complement := complement[..39];
    }
    r := Ok(NumberAndComplement(number, complement));
  }

  /** The last attribute with the right name supplies the value: earlier ones are
      overwritten. */
  lemma {:induction false} ScanLastMatchWins(attributes: seq<AddressAttribute>, n: nat, j: nat, isNumber: bool)
    requires j < n <= |attributes|
    requires Names(isNumber, attributes[j].name)
    requires forall k :: j < k < n ==> !Names(isNumber, attributes[k].name)
    requires Scan(attributes, n).Ok?
    ensures attributes[j].values != []
    ensures Field(Scan(attributes, n).value, isNumber) == attributes[j].values[0]
  {
    if n - 1 > j {
      ScanLastMatchWins(attributes, n - 1, j, isNumber);
    }
  }

  /** Without an attribute of the right name the value stays "". */
  lemma {:induction false} ScanNoMatch(attributes: seq<AddressAttribute>, n: nat, isNumber: bool)
    requires n <= |attributes|
    requires forall k :: 0 <= k < n ==> !Names(isNumber, attributes[k].name)
    requires Scan(attributes, n).Ok?
    ensures Field(Scan(attributes, n).value, isNumber) == ""
  {
    if n > 0 {
      ScanNoMatch(attributes, n - 1, isNumber);
    }
  }

  /** The loop throws exactly when a number or complement attribute has no value. */
  lemma {:induction false} ScanFails(attributes: seq<AddressAttribute>, n: nat)
    requires n <= |attributes|
    ensures Scan(attributes, n).Err? ==> Scan(attributes, n).error == ArgumentOutOfRangeException
    ensures Scan(attributes, n).Err? <==>
      exists k :: 0 <= k < n && (Names(true, attributes[k].name) || Names(false, attributes[k].name)) && attributes[k].values == []
  {
    if n > 0 {
      ScanFails(attributes, n - 1);
      if Scan(attributes, n - 1).Err? {
        var k :| 0 <= k < n - 1 && (Names(true, attributes[k].name) || Names(false, attributes[k].name)) && attributes[k].values == [];
        assert k < n;
      }
    }
  }

  // ---------------------------------------------------------------------------------
  // GetPhoneNumber, RemoveIncorrectFoneAreaCodes

  /** PHONE_WITHOUT_AREA_CODE_MAX_LENGTH and PHONE_ONLY_NUMBER_ONE_MAX_SIZE. */
  const PhoneWithoutAreaCodeMaxLength: nat := 9
  const PhoneOnlyNumberOneMaxSize: nat := 11

  /** RemoveIncorrectFoneAreaCodes: a number of more than nine characters loses one
      leading '0' (the trunk prefix); nothing else changes. */
  function RemoveIncorrectFoneAreaCodes(completeFoneNumber: string): (r: string)
    ensures r == completeFoneNumber || completeFoneNumber == "0" + r
    ensures r != completeFoneNumber <==>
      |completeFoneNumber| > PhoneWithoutAreaCodeMaxLength && completeFoneNumber[0] == '0'
  {
    if |completeFoneNumber| > PhoneWithoutAreaCodeMaxLength && completeFoneNumber[0] == '0' then
      assert completeFoneNumber == "0" + completeFoneNumber[1..];
      completeFoneNumber[1..]
    else completeFoneNumber
  }

  /** The parts of a customer address the sender is built from. */
  datatype Address = Address(firstName: Option<string>, lastName: Option<string>, phoneNumber: Option<string>)

  /** Uol.PagSeguro.Domain.Phone. */
  datatype Phone = Phone(areaCode: string, number: string)

  /** The digits GetPhoneNumber splits. */
  function PhoneDigits(phoneNumber: string): (d: string)
    ensures AllDigits(d)
  {
    RemoveIncorrectFoneAreaCodes(OnlyDigits(phoneNumber))
  }

  /** GetPhoneNumber: up to nine digits are a number without area code; ten or eleven
      are a two-digit area code and the rest; anything longer gives two empty parts. A
      null address fails on .PhoneNumber; a null phone number fails in Regex.Matches. */
  function GetPhoneNumber(address: Option<Address>): (r: Result<Phone, Exception>)
    ensures address.None? ==> r == Err(NullReferenceException)
    ensures address.Some? && address.value.phoneNumber.None? ==> r == Err(ArgumentNullException)
    ensures address.Some? && address.value.phoneNumber.Some? ==> r.Ok?
    ensures r.Ok? ==>
      var d := PhoneDigits(address.value.phoneNumber.value);
      && AllDigits(r.value.areaCode) && AllDigits(r.value.number)
      && |r.value.number| <= PhoneWithoutAreaCodeMaxLength
      && (|d| <= PhoneOnlyNumberOneMaxSize ==> r.value.areaCode + r.value.number == d)
      && (|r.value.areaCode| == 2 <==> PhoneWithoutAreaCodeMaxLength < |d| <= PhoneOnlyNumberOneMaxSize)
      && (r.value.areaCode == [] <==> !(PhoneWithoutAreaCodeMaxLength < |d| <= PhoneOnlyNumberOneMaxSize))
      && (|d| > PhoneOnlyNumberOneMaxSize ==> r.value == Phone("", ""))
  {
    match address
    case None => Err(NullReferenceException)
    case Some(a) =>
      match a.phoneNumber
      case None => Err(ArgumentNullException)
      case Some(text) =>
        var phoneNumber := PhoneDigits(text);
        if |phoneNumber| <= PhoneWithoutAreaCodeMaxLength then Ok(Phone("", phoneNumber))
        else if |phoneNumber| <= PhoneOnlyNumberOneMaxSize then
          assert phoneNumber == phoneNumber[..2] + phoneNumber[2..];
          Ok(Phone(phoneNumber[..2], phoneNumber[2..]))
        else Ok(Phone("", ""))
  }

  /** A phone written with the trunk prefix, such as "(011) 98765-4321" reduced to its
      digits, splits into the area code and the local number. */
  lemma PhoneWithTrunkPrefix(firstName: Option<string>, lastName: Option<string>, areaCode: string, local: string)
    requires AllDigits(areaCode) && AllDigits(local) && |areaCode| == 2 && 8 <= |local| <= 9
    ensures GetPhoneNumber(Some(Address(firstName, lastName, Some("0" + areaCode + local)))) ==
      Ok(Phone(areaCode, local))
  {
    var text := "0" + areaCode + local;
    assert AllDigits(text);
    assert PhoneDigits(text) == areaCode + local;
    assert (areaCode + local)[..2] == areaCode && (areaCode + local)[2..] == local;
  }

  // ---------------------------------------------------------------------------------
  // GetBillingShippingFullName

  /** string.IsNullOrWhiteSpace negated. */
  predicate Present(s: Option<string>) {
    s.Some? && !IsBlank(s.value)
  }

  /** The name before normalisation: "first last" when both are given, otherwise the one
      that is given, otherwise "". */
  function ComposeName(firstName: Option<string>, lastName: Option<string>): (r: string)
    ensures Present(firstName) && Present(lastName) ==> r == firstName.value + " " + lastName.value
    ensures Present(firstName) != Present(lastName) ==>
      r == if Present(firstName) then firstName.value else lastName.value
    ensures !Present(firstName) && !Present(lastName) ==> r == ""
  {
    if Present(firstName) && Present(lastName) then firstName.value + " " + lastName.value
    else
      var single := if Present(firstName) then firstName.value else "";
      if Present(lastName) then lastName.value else single
  }

  /** GetBillingShippingFullName: the composed name, space-normalised and cut to 50
      characters; a null address throws. */
  function GetBillingShippingFullName(address: Option<Address>): (r: Result<string, Exception>)
    ensures address.None? <==> r == Err(ArgumentNullException)
    ensures r.Ok? ==>
      var normalised := NormaliseSpaces(ComposeName(address.value.firstName, address.value.lastName));
      && |r.value| <= 50
      && r.value <= normalised
      && (|normalised| <= 50 ==> r.value == normalised)
      && (|normalised| > 50 ==> |r.value| == 50)
  {
    match address
    case None => Err(ArgumentNullException)
    case Some(a) =>
      var billingShippingFullName := NormaliseSpaces(ComposeName(a.firstName, a.lastName));
      Ok(if |billingShippingFullName| > 50 then billingShippingFullName[..50] else billingShippingFullName)
  }

  /** The full name has no double spaces, does not start with white space, and is ""
      exactly when neither name part is given. */
  lemma FullNameShape(address: Address)
    ensures var r := GetBillingShippingFullName(Some(address)).value;
      && NoDoubleSpace(r)
      && (r == [] || !IsWhiteSpace(r[0]))
      && (r == [] <==> !Present(address.firstName) && !Present(address.lastName))
  {
    var composed := ComposeName(address.firstName, address.lastName);
    var normalised := NormaliseSpaces(composed);
    NormaliseSpacesShape(composed);
    NormaliseSpacesEmpty(composed);
    var r := GetBillingShippingFullName(Some(address)).value;
    NoDoubleSpaceSlice(normalised, 0, |r|);
    assert r == normalised[0..|r|];
    if Present(address.firstName) {
      assert !IsBlank(composed) by {
        var i :| 0 <= i < |address.firstName.value| && !IsWhiteSpace(address.firstName.value[i]);
        assert composed[i] == address.firstName.value[i];
      }
    } else if Present(address.lastName) {
      assert composed == address.lastName.value;
    }
  }

  /** Two one-word names of at most 49 characters together come out as "first last". */
  lemma FullNameOfTwoWords(first: string, last: string, phone: Option<string>)
    requires first != [] && last != [] && |first| + |last| < 50
    requires forall i :: 0 <= i < |first| ==> !IsWhiteSpace(first[i])
    requires forall i :: 0 <= i < |last| ==> !IsWhiteSpace(last[i])
    ensures GetBillingShippingFullName(Some(Address(Some(first), Some(last), phone))) == Ok(first + " " + last)
  {
    var t := first + " " + last;
    TwoWordsAreNormal(first, last);
    NormaliseSpacesKeepsNormal(t);
    ComposeTwoWords(first, last);
    FullNameIsShortName(Address(Some(first), Some(last), phone), t);
  }

  lemma ComposeTwoWords(first: string, last: string)
    requires first != [] && last != []
    requires !IsWhiteSpace(first[0]) && !IsWhiteSpace(last[0])
    ensures ComposeName(Some(first), Some(last)) == first + " " + last
  {
  }

  lemma FullNameIsShortName(address: Address, t: string)
    requires NormaliseSpaces(ComposeName(address.firstName, address.lastName)) == t && |t| <= 50
    ensures GetBillingShippingFullName(Some(address)) == Ok(t)
  {
  }

  lemma TwoWordsAreNormal(first: string, last: string)
    requires first != [] && last != []
    requires forall i :: 0 <= i < |first| ==> !IsWhiteSpace(first[i])
    requires forall i :: 0 <= i < |last| ==> !IsWhiteSpace(last[i])
    ensures var t := first + " " + last;
      NoDoubleSpace(t) && !IsWhiteSpace(t[0]) && !IsWhiteSpace(t[|t| - 1])
  {
    var t := first + " " + last;
    assert t[0] == first[0] && t[|t| - 1] == last[|last| - 1];
    forall i | 0 <= i < |t| - 1
      ensures !(t[i] == ' ' && t[i + 1] == ' ')
    {
      if i < |first| {
        assert t[i] == first[i];
      } else {
        assert t[i + 1] == last[i + 1 - |first| - 1];
      }
    }
  }

  // ---------------------------------------------------------------------------------
  // GetProcuctName, AddItemDescrition

  /** GetProcuctName: the product's name, or "Nome não especificado" when it is blank. */
  function GetProcuctName(name: Option<string>): (r: string)
    ensures !IsBlank(r)
    ensures Present(name) ==> r == name.value
  {
    if Present(name) then name.value
    else
      var fallback := "Nome não especificado";
      assert !IsWhiteSpace(fallback[0]);
      fallback
  }

  /** A text still holds a tag: a '<' with a '>' somewhere after it. */
  predicate HasTag(s: string) {
    exists i, j :: 0 <= i < j < |s| && s[i] == '<' && s[j] == '>'
  }

  /** What follows the first '>' of s. */
  function AfterFirstClose(s: string): (r: string)
    requires '>' in s
    ensures |r| < |s|
  {
    if s[0] == '>' then s[1..] else AfterFirstClose(s[1..])
  }

  /** Regex.Replace(s, "<(.|\n)*?>", " - "): scanning from the left, a '<' with a '>'
      after it starts a match, which the lazy repetition ends at the first such '>'. */
  function ReplaceTags(s: string): (r: string)
    decreases |s|
  {
    if s == [] then []
    else if s[0] == '<' && '>' in s[1..] then " - " + ReplaceTags(AfterFirstClose(s[1..]))
    else [s[0]] + ReplaceTags(s[1..])
  }

  /** A text without tags comes through the replacement unchanged. */
  lemma {:induction false} ReplaceTagsKeepsTagFree(s: string)
    requires !HasTag(s)
    ensures ReplaceTags(s) == s
    decreases |s|
  {
    if s != [] {
      ReplaceTagsKeepsTagFree(s[1..]);
      assert s == [s[0]] + s[1..];
    }
  }

  /** No tag survives the replacement. */
  lemma {:induction false} ReplaceTagsLeavesNoTag(s: string)
    ensures !HasTag(ReplaceTags(s))
    decreases |s|
  {
    if s != [] {
      if s[0] == '<' && '>' in s[1..] {
        var rest := ReplaceTags(AfterFirstClose(s[1..]));
        ReplaceTagsLeavesNoTag(AfterFirstClose(s[1..]));
      } else {
        var rest := ReplaceTags(s[1..]);
        ReplaceTagsLeavesNoTag(s[1..]);
        if s[0] == '<' {
          ReplaceTagsKeepsTagFree(s[1..]);
        }
      }
    }
  }

  /** Replacing tags never makes a description blank. */
  lemma {:induction false} ReplaceTagsKeepsNonBlank(s: string)
    requires !IsBlank(s)
    ensures !IsBlank(ReplaceTags(s))
    decreases |s|
  {
    if s[0] == '<' && '>' in s[1..] {
      assert ReplaceTags(s)[1] == '-';
    } else if !IsWhiteSpace(s[0]) {
      assert ReplaceTags(s)[0] == s[0];
    } else {
      var i :| 0 <= i < |s| && !IsWhiteSpace(s[i]);
      assert s[1..][i - 1] == s[i];
      ReplaceTagsKeepsNonBlank(s[1..]);
      var rest := ReplaceTags(s[1..]);
      var j :| 0 <= j < |rest| && !IsWhiteSpace(rest[j]);
      assert ReplaceTags(s)[j + 1] == rest[j];
    }
  }

  /** The item name before the length cap: the product name, followed by " - " and the
      attribute description with its tags replaced, when there is a description. */
  function DescribedName(productName: string, attributeDescription: Option<string>): (r: string)
    ensures !Present(attributeDescription) ==> r == productName
    ensures Present(attributeDescription) ==>
      && |r| >= |productName| + 3
      && r[..|productName| + 3] == productName + " - "
      && !HasTag(r[|productName| + 3..])
      && !IsBlank(r[|productName| + 3..])
    ensures Present(attributeDescription) ==> r == productName + " - " + ReplaceTags(attributeDescription.value)
  {
    if !Present(attributeDescription) then productName
    else
      var described := ReplaceTags(attributeDescription.value);
      ReplaceTagsLeavesNoTag(attributeDescription.value);
      ReplaceTagsKeepsNonBlank(attributeDescription.value);
      var r := productName + " - " + described;
      assert r[|productName| + 3..] == described;
      if IsBlank(described) then productName else r
  }

  /** AddItemDescrition: the described name, cut to 99 characters when it is longer than
      100. */
  function AddItemDescrition(productName: string, attributeDescription: Option<string>): (r: string)
    ensures |r| <= 100
    ensures r <= DescribedName(productName, attributeDescription)
    ensures |DescribedName(productName, attributeDescription)| <= 100 ==>
      r == DescribedName(productName, attributeDescription)
    ensures |DescribedName(productName, attributeDescription)| > 100 ==> |r| == 99
  {
    var name := DescribedName(productName, attributeDescription);
    if |name| > 100 then name[..99] else name
  }
}
