/** How PaymentReturn turns a transaction's Reference into an order lookup:
    exactly 36 characters go through new Guid(...), anything else through int.Parse. */
module OrderResolver {
  import opened Common
  import opened Text

  predicate IsHexDigit(c: char) {
    ('0' <= c <= '9') || ('a' <= c <= 'f') || ('A' <= c <= 'F')
  }

  function HexValue(c: char): (v: nat)
    requires IsHexDigit(c)
    ensures v < 16
  {
    if '0' <= c <= '9' then (c - '0') as nat
    else if 'a' <= c <= 'f' then (c - 'a') as nat + 10
    else (c - 'A') as nat + 10
  }

  /** The lower-case hexadecimal digit Guid.ToString() writes for v. */
  function HexChar(v: nat): (c: char)
    requires v < 16
    ensures IsHexDigit(c) && HexValue(c) == v
  {
    if v < 10 then '0' + v as char else 'a' + (v - 10) as char
  }

  /** A GUID, as the values of its 32 hexadecimal digits in written order. */
  type Guid = seq<nat>

  predicate IsGuid(g: Guid) {
    |g| == 32 && forall k :: 0 <= k < 32 ==> g[k] < 16
  }

  predicate AllHex(s: string) {
    forall i :: 0 <= i < |s| ==> IsHexDigit(s[i])
  }

  function HexValues(s: string): (g: seq<nat>)
    requires AllHex(s)
    ensures |g| == |s| && forall k :: 0 <= k < |s| ==> g[k] == HexValue(s[k])
  {
    if s == [] then [] else [HexValue(s[0])] + HexValues(s[1..])
  }

  /** The four places that hold a hyphen in the 36-character form
      xxxxxxxx-xxxx-xxxx-xxxx-xxxxxxxxxxxx. */
  predicate IsDashPosition(i: int) {
    i == 8 || i == 13 || i == 18 || i == 23
  }

  /** Where the k-th hexadecimal digit sits in the 36-character form. */
  function DigitPosition(k: nat): (i: nat)
    requires k < 32
    ensures i < 36 && !IsDashPosition(i)
  {
    if k < 8 then k else if k < 12 then k + 1 else if k < 16 then k + 2 else if k < 20 then k + 3 else k + 4
  }

  /** Which hexadecimal digit a non-hyphen place of the 36-character form holds. */
  function DigitIndex(i: nat): (k: nat)
    requires i < 36 && !IsDashPosition(i)
    ensures k < 32 && DigitPosition(k) == i
  {
    if i < 8 then i else if i < 13 then i - 1 else if i < 18 then i - 2 else if i < 23 then i - 3 else i - 4
  }

  predicate IsDashedGuid(t: string) {
    |t| == 36 && forall i :: 0 <= i < 36 ==> if IsDashPosition(i) then t[i] == '-' else IsHexDigit(t[i])
  }

  /** The 32 digits of the 36-character form, hyphens dropped. */
  function DashedGuidDigits(t: string): (d: string)
    requires IsDashedGuid(t)
    ensures |d| == 32 && AllHex(d)
    ensures forall k :: 0 <= k < 32 ==> d[k] == t[DigitPosition(k)]
  {
    seq(32, k requires 0 <= k < 32 => t[DigitPosition(k)])
  }

  /** new Guid(s): white space around the text is dropped; then the 36-character dashed
      form and the 32-digit form are accepted, anything else is a FormatException. */
  function ParseGuid(s: string): (r: Result<Guid, Exception>)
    ensures r.Ok? ==> IsGuid(r.value)
    ensures r.Err? ==> r.error == FormatException
  {
    var t := Trim(s);
    if IsDashedGuid(t) then Ok(HexValues(DashedGuidDigits(t)))
    else if |t| == 32 && AllHex(t) then Ok(HexValues(t))
    else Err(FormatException)
  }

  /** Guid.ToString(): the 36-character form, in lower case. */
  function FormatGuid(g: Guid): (s: string)
    requires IsGuid(g)
    ensures IsDashedGuid(s)
    ensures forall k :: 0 <= k < 32 ==> s[DigitPosition(k)] == HexChar(g[k])
  {
    seq(36, i requires 0 <= i < 36 => if IsDashPosition(i) then '-' else HexChar(g[DigitIndex(i)]))
  }

  /** Writing a GUID and reading it back gives the same GUID. */
  lemma FormatGuidParses(g: Guid)
    requires IsGuid(g)
    ensures ParseGuid(FormatGuid(g)) == Ok(g)
  {
    FormatGuidIsTrimmed(g);
    FormatGuidDigits(g);
  }

  lemma FormatGuidIsTrimmed(g: Guid)
    requires IsGuid(g)
    ensures Trim(FormatGuid(g)) == FormatGuid(g)
  {
    var s := FormatGuid(g);
    assert s[0] == HexChar(g[0]) && s[35] == HexChar(g[31]);
    TrimOfTrimmed(s);
  }

  lemma FormatGuidDigits(g: Guid)
    requires IsGuid(g)
    ensures HexValues(DashedGuidDigits(FormatGuid(g))) == g
  {
    var v := HexValues(DashedGuidDigits(FormatGuid(g)));
    forall k | 0 <= k < 32 ensures v[k] == g[k] {
      assert v[k] == HexValue(HexChar(g[k]));
    }
  }

  /** The two lookups PaymentReturn can make. */
  datatype Reference = ByGuid(guid: Guid) | ById(id: int)

  /** The reference resolution of PaymentReturn. A null Reference fails on .Length. */
  function ResolveReference(reference: Option<string>): (r: Result<Reference, Exception>)
    ensures reference.None? ==> r == Err(NullReferenceException)
    ensures reference.Some? && |reference.value| == 36 ==>
      match ParseGuid(reference.value)
      case Ok(g) => r == Ok(ByGuid(g))
      case Err(e) => r == Err(e)
    ensures reference.Some? && |reference.value| != 36 ==>
      match ParseInt32(reference.value)
      case Ok(id) => r == Ok(ById(id))
      case Err(e) => r == Err(e)
  {
    match reference
    case None => Err(NullReferenceException)
    case Some(text) =>
      if |text| == 36 then
        match ParseGuid(text)
        case Ok(g) => Ok(ByGuid(g))
        case Err(e) => Err(e)
      else
        match ParseInt32(text)
        case Ok(id) => Ok(ById(id))
        case Err(e) => Err(e)
  }

  /** The reference the checkout sends (Order.Id.ToString()) comes back as a lookup of
      that same id. */
  lemma CheckoutReferenceResolvesById(id: int)
    requires Int32Min <= id <= Int32Max
    ensures ResolveReference(Some(IntToString(id))) == Ok(ById(id))
  {
    IntToStringShort(id);
    IntToStringParses(id);
  }

  /** An order's GUID written out resolves as a lookup of that GUID. */
  lemma GuidReferenceResolvesByGuid(g: Guid)
    requires IsGuid(g)
    ensures ResolveReference(Some(FormatGuid(g))) == Ok(ByGuid(g))
  {
    FormatGuidParses(g);
  }
}
