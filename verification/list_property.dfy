/** The listing form (`frontend/app/list-property/page.ts`): the form record
    and its single-field updates, the amenity toggle, the image selection, and
    the guarded submit that uploads the metadata and calls `listProperty`. */
module ListProperty {
  import opened Common
  import opened Chain

  /** The string fields of the form, by their `name` attribute. */
  datatype Field =
    | Title | Description | Location | Price | SecurityDeposit
    | Bedrooms | Bathrooms | Area | AvailableFrom | MinRentalPeriod

  /** `formData`. */
  datatype FormData = FormData(
    title: string,
    description: string,
    location: string,
    price: string,
    securityDeposit: string,
    bedrooms: string,
    bathrooms: string,
    area: string,
    availableFrom: string,
    minRentalPeriod: string,
    amenities: seq<string>)

  /** The form as the page first renders it: every field empty except the
      minimum rental period, which starts at three months. */
  function InitialForm(): (f: FormData)
    ensures f.amenities == [] && f.minRentalPeriod == "3"
    ensures forall g :: g != MinRentalPeriod ==> FieldValue(f, g) == ""
  {
    FormData("", "", "", "", "", "", "", "", "", "3", [])
  }

  function FieldValue(f: FormData, field: Field): string
  {
    match field
    case Title => f.title
    case Description => f.description
    case Location => f.location
    case Price => f.price
    case SecurityDeposit => f.securityDeposit
    case Bedrooms => f.bedrooms
    case Bathrooms => f.bathrooms
    case Area => f.area
    case AvailableFrom => f.availableFrom
    case MinRentalPeriod => f.minRentalPeriod
  }

  /** `{ ...prev, [name]: value }`, used by both the input and the select
      handlers: the named field takes the value, nothing else changes. */
  function WithField(f: FormData, field: Field, value: string): (r: FormData)
    ensures FieldValue(r, field) == value
    ensures forall g :: g != field ==> FieldValue(r, g) == FieldValue(f, g)
    ensures r.amenities == f.amenities
  {
    match field
    case Title => f.(title := value)
    case Description => f.(description := value)
    case Location => f.(location := value)
    case Price => f.(price := value)
    case SecurityDeposit => f.(securityDeposit := value)
    case Bedrooms => f.(bedrooms := value)
    case Bathrooms => f.(bathrooms := value)
    case Area => f.(area := value)
    case AvailableFrom => f.(availableFrom := value)
    case MinRentalPeriod => f.(minRentalPeriod := value)
  }

  /** Two forms that agree on every field and on the amenities are equal. */
  lemma FormExtensionality(f: FormData, g: FormData)
    requires forall field :: FieldValue(f, field) == FieldValue(g, field)
    requires f.amenities == g.amenities
    ensures f == g
  {
    assert FieldValue(f, Title) == FieldValue(g, Title);
    assert FieldValue(f, Description) == FieldValue(g, Description);
    assert FieldValue(f, Location) == FieldValue(g, Location);
    assert FieldValue(f, Price) == FieldValue(g, Price);
    assert FieldValue(f, SecurityDeposit) == FieldValue(g, SecurityDeposit);
    assert FieldValue(f, Bedrooms) == FieldValue(g, Bedrooms);
    assert FieldValue(f, Bathrooms) == FieldValue(g, Bathrooms);
    assert FieldValue(f, Area) == FieldValue(g, Area);
    assert FieldValue(f, AvailableFrom) == FieldValue(g, AvailableFrom);
    assert FieldValue(f, MinRentalPeriod) == FieldValue(g, MinRentalPeriod);
  }

  /** Writing back the value a field already holds changes nothing, and of
      two writes to one field the later wins. */
  lemma WithFieldLaws(f: FormData, field: Field, v: string, w: string)
    ensures WithField(f, field, FieldValue(f, field)) == f
    ensures WithField(WithField(f, field, v), field, w) == WithField(f, field, w)
  {
    FormExtensionality(WithField(f, field, FieldValue(f, field)), f);
    FormExtensionality(WithField(WithField(f, field, v), field, w), WithField(f, field, w));
  }

  /** `amenities.filter(a => a !== amenity)`: the other entries, in order. */
  function Without(s: seq<string>, amenity: string): (r: seq<string>)
    ensures |r| <= |s|
    ensures forall x :: x in r <==> x in s && x != amenity
    ensures IsSubsequence(r, s)
    ensures amenity !in s ==> r == s
    decreases |s|
  {
    if s == [] then []
    else
      var front := Without(DropLast(s), amenity);
      assert s == DropLast(s) + [Last(s)];
      if Last(s) == amenity then
        SubsequenceAppendRight(front, DropLast(s), Last(s));
        front
      else
        SubsequenceAppendBoth(front, DropLast(s), Last(s));
        front + [Last(s)]
  }

  /** `handleAmenitiesChange`: a present amenity is removed (every
      occurrence of it), an absent one is appended. */
  function ToggleAmenity(s: seq<string>, amenity: string): (r: seq<string>)
    ensures amenity in s ==> r == Without(s, amenity) && amenity !in r
    ensures amenity !in s ==> r == s + [amenity]
    ensures forall x :: x != amenity ==> (x in r <==> x in s)
    ensures amenity in r <==> amenity !in s
  {
    if amenity in s then Without(s, amenity) else s + [amenity]
  }

  /** Removing every occurrence keeps a list free of duplicates. */
  lemma {:induction false} WithoutKeepsNoDuplicates(s: seq<string>, amenity: string)
    requires NoDuplicates(s)
    ensures NoDuplicates(Without(s, amenity))
    decreases |s|
  {
    if s != [] {
      assert NoDuplicates(DropLast(s));
      WithoutKeepsNoDuplicates(DropLast(s), amenity);
      assert Last(s) !in DropLast(s);
    }
  }

  /** The toggle keeps the amenity list free of duplicates. */
  lemma ToggleKeepsNoDuplicates(s: seq<string>, amenity: string)
    requires NoDuplicates(s)
    ensures NoDuplicates(ToggleAmenity(s, amenity))
  {
    if amenity in s {
      WithoutKeepsNoDuplicates(s, amenity);
    }
  }

  /** Ticking an absent amenity and unticking it again restores the list. */
  lemma ToggleAbsentTwice(s: seq<string>, amenity: string)
    requires amenity !in s
    ensures ToggleAmenity(ToggleAmenity(s, amenity), amenity) == s
  {
    var t := s + [amenity];
    assert DropLast(t) == s && Last(t) == amenity;
  }

  /** Unticking a present amenity and ticking it again moves it to the end. */
  lemma TogglePresentTwice(s: seq<string>, amenity: string)
    requires amenity in s
    ensures ToggleAmenity(ToggleAmenity(s, amenity), amenity) == Without(s, amenity) + [amenity]
  {
  }

  /** Characters `parseInt` skips before the number: the ASCII blanks, the
      no-break space and the byte-order mark. */
  predicate IsSpace(c: char)
  {
    c == ' ' || c == '\t' || c == '\n' || c == '\U{000B}' || c == '\U{000C}' || c == '\r'
    || c == '\U{00A0}' || c == '\U{FEFF}'
  }

  predicate IsDigit(c: char)
  {
    '0' <= c <= '9'
  }

  /** The text after the blanks `parseInt` skips. */
  function TrimStart(s: string): (r: string)
    ensures |r| <= |s|
    ensures r == [] || !IsSpace(r[0])
    decreases |s|
  {
    if s != [] && IsSpace(s[0]) then TrimStart(s[1..]) else s
  }

  /** What is skipped is a run of blanks: the rest is a suffix of the text. */
  lemma {:induction false} TrimStartIsSuffix(s: string)
    ensures TrimStart(s) == s[|s| - |TrimStart(s)|..]
    ensures forall i :: 0 <= i < |s| - |TrimStart(s)| ==> IsSpace(s[i])
    decreases |s|
  {
    if s != [] && IsSpace(s[0]) {
      TrimStartIsSuffix(s[1..]);
    }
  }

  /** The text after an optional leading sign. */
  function SignlessPart(t: string): string
  {
    if t != [] && (t[0] == '-' || t[0] == '+') then t[1..] else t
  }

  /** The longest prefix of decimal digits. */
  function DigitPrefix(s: string): string
    decreases |s|
  {
    if s == [] || !IsDigit(s[0]) then [] else [s[0]] + DigitPrefix(s[1..])
  }

  /** `DigitPrefix` is a prefix, made of digits, that stops before the
      first non-digit. */
  lemma {:induction false} DigitPrefixIsLongestRun(s: string)
    ensures var r := DigitPrefix(s);
            && |r| <= |s| && r == s[..|r|]
            && (forall i :: 0 <= i < |r| ==> IsDigit(r[i]))
            && (|r| < |s| ==> !IsDigit(s[|r|]))
    decreases |s|
  {
    if s != [] && IsDigit(s[0]) {
      DigitPrefixIsLongestRun(s[1..]);
    }
  }

  /** The value of one decimal digit. */
  function DigitValue(c: char): (v: nat)
    ensures IsDigit(c) ==> v == c as int - '0' as int
    ensures v < 10
  {
    if IsDigit(c) then c as int - '0' as int else 0
  }

  /** The value of a string of decimal digits. */
  function DigitsValue(d: string): nat
    decreases |d|
  {
    if d == [] then 0 else 10 * DigitsValue(DropLast(d)) + DigitValue(Last(d))
  }

  /** `parseInt(s, 10)`: leading blanks are skipped, one sign is read, then
      as many digits as follow; no digit at all is `NaN`, here `None`. */
  function ParseInt(s: string): (r: Option<int>)
    ensures r.None? <==> DigitPrefix(SignlessPart(TrimStart(s))) == []
  {
    var t := TrimStart(s);
    var digits := DigitPrefix(SignlessPart(t));
    if digits == [] then None
    else
      var magnitude: int := DigitsValue(digits);
      Some(if t != [] && t[0] == '-' then -magnitude else magnitude)
  }

  function DigitChar(d: nat): (c: char)
    requires d < 10
    ensures IsDigit(c) && c as int - '0' as int == d
  {
    ('0' as int + d) as char
  }

  /** The decimal notation of `n`, as the form fields hold numbers. */
  function DecimalString(n: nat): (s: string)
    ensures s != [] && forall i :: 0 <= i < |s| ==> IsDigit(s[i])
    decreases n
  {
    if n < 10 then [DigitChar(n)] else DecimalString(n / 10) + [DigitChar(n % 10)]
  }

  lemma {:induction false} DecimalValue(n: nat)
    ensures DigitsValue(DecimalString(n)) == n
    decreases n
  {
    var s := DecimalString(n);
    if n >= 10 {
      assert DropLast(s) == DecimalString(n / 10) && Last(s) == DigitChar(n % 10);
      DecimalValue(n / 10);
    } else {
      assert DropLast(s) == [] && Last(s) == DigitChar(n);
    }
  }

  lemma {:induction false} DigitPrefixOfDigits(d: string, rest: string)
    requires forall i :: 0 <= i < |d| ==> IsDigit(d[i])
    requires rest == [] || !IsDigit(rest[0])
    ensures DigitPrefix(d + rest) == d
    decreases |d|
  {
    if d != [] {
      assert (d + rest)[1..] == d[1..] + rest;
      DigitPrefixOfDigits(d[1..], rest);
    } else {
      assert d + rest == rest;
    }
  }

  /** A string that starts with a digit has no blanks or sign to skip. */
  lemma DigitStartIsBare(s: string)
    requires s != [] && IsDigit(s[0])
    ensures TrimStart(s) == s && SignlessPart(s) == s
  {
  }

  /** A string with nothing to skip reads as the value of its digit prefix. */
  lemma ParseBare(s: string, d: string)
    requires TrimStart(s) == s && SignlessPart(s) == s && DigitPrefix(s) == d && d != []
    ensures ParseInt(s) == Some(DigitsValue(d) as int)
  {
    assert s != [];
    assert s[0] != '-';
  }

  /** A run of digits followed by a non-digit reads as the run's value. */
  lemma ParseDigitsThen(d: string, rest: string)
    requires d != [] && forall i :: 0 <= i < |d| ==> IsDigit(d[i])
    requires rest == [] || !IsDigit(rest[0])
    ensures ParseInt(d + rest) == Some(DigitsValue(d) as int)
  {
    assert (d + rest)[0] == d[0];
    DigitStartIsBare(d + rest);
    DigitPrefixOfDigits(d, rest);
    ParseBare(d + rest, d);
  }

  /** `parseInt` reads back a number written in decimal, and stops at the
      first character that is not a digit (so "2.5" reads as 2). */
  lemma ParseDecimal(n: nat, rest: string)
    requires rest == [] || !IsDigit(rest[0])
    ensures ParseInt(DecimalString(n) + rest) == Some(n)
  {
    ParseDigitsThen(DecimalString(n), rest);
    DecimalValue(n);
  }

  /** A minus sign before a number's decimal notation reads as its negation. */
  lemma ParseNegative(n: nat, rest: string)
    requires rest == [] || !IsDigit(rest[0])
    ensures ParseInt("-" + DecimalString(n) + rest) == Some(-(n as int))
  {
    var d := DecimalString(n);
    var s := "-" + d + rest;
    assert TrimStart(s) == s;
    assert SignlessPart(s) == d + rest;
    DigitPrefixOfDigits(d, rest);
    DecimalValue(n);
  }

  /** A string without any digit after the blanks and the sign is `NaN`. */
  lemma ParseEmptyIsNaN()
    ensures ParseInt("") == None
    ensures ParseInt(" ") == None
    ensures ParseInt("-") == None
  {
    assert DigitPrefix("") == [];
    assert TrimStart("") == "" && SignlessPart("") == "";
    assert TrimStart(" ") == "" by {
      assert " "[1..] == "";
    }
    assert TrimStart("-") == "-";
    assert SignlessPart("-") == "" by {
      assert "-"[1..] == "";
    }
  }

  /** `Math.floor(ms / 1000)` of `Date.getTime()`; an invalid date stays `NaN`. */
  function AvailableFromTimestamp(epochMillis: Option<int>): (r: Option<int>)
    ensures r.None? <==> epochMillis.None?
    ensures r.Some? ==> r.value * 1000 <= epochMillis.value < r.value * 1000 + 1000
  {
    if epochMillis.None? then None else Some(epochMillis.value / 1000)
  }

  /** The body of `/api/upload`'s JSON answer as the page reads it. */
  datatype UploadBody = UploadBody(success: bool, metadataIpfsHash: Option<string>, error: Option<string>)

  /** The answer to the upload POST: its `ok` flag and its body, `None` when
      the body is not JSON. */
  datatype UploadReply = UploadReply(ok: bool, body: Option<UploadBody>)

  /** The metadata hash of a successful upload; `None` is the branch that
      throws. */
  function UploadedHash(reply: UploadReply): (h: Option<string>)
    ensures h.Some? <==> reply.ok && reply.body.Some? && reply.body.value.success
                         && Truthy(reply.body.value.metadataIpfsHash)
    ensures h.Some? ==> h == reply.body.value.metadataIpfsHash && h.value != ""
  {
    if reply.ok && reply.body.Some? && reply.body.value.success && Truthy(reply.body.value.metadataIpfsHash)
    then reply.body.value.metadataIpfsHash
    else None
  }

  /** The message of the upload failure, when the body could be read; it is
      the message of the error the submit fails with. */
  function UploadError(body: UploadBody): (msg: string)
    ensures Truthy(body.error) ==> msg == body.error.value
    ensures !Truthy(body.error) ==> msg == "Failed to upload image and metadata to IPFS"
  {
    OrElse(body.error, "Failed to upload image and metadata to IPFS")
  }

  /** The metadata JSON sent with the image; a count that does not parse is
      serialised as `null` (`None`). */
  datatype BaseMetadata = BaseMetadata(
    title: string,
    description: string,
    bedrooms: Option<int>,
    bathrooms: Option<int>,
    area: Option<int>,
    amenities: seq<string>)

  function BaseMetadataOf(f: FormData): (m: BaseMetadata)
    ensures m.title == f.title && m.description == f.description && m.amenities == f.amenities
    ensures m.bedrooms == ParseInt(f.bedrooms) && m.bathrooms == ParseInt(f.bathrooms)
    ensures m.area == ParseInt(f.area)
  {
    BaseMetadata(f.title, f.description, ParseInt(f.bedrooms), ParseInt(f.bathrooms), ParseInt(f.area), f.amenities)
  }

  /** The arguments of `listProperty`. Counts that do not parse are passed
      on as `NaN` (`None`); refusing them is the contract binding's affair. */
  datatype ListingCall = ListingCall(
    location: string,
    priceWei: int,
    depositWei: int,
    bedrooms: Option<int>,
    bathrooms: Option<int>,
    area: Option<int>,
    availableFrom: Option<int>,
    minRentalPeriodMonths: Option<int>,
    metadataIpfsHash: string)

  /** How a submit ends. `UploadFailed` carries the thrown message when the
      answer's body was JSON (`None` is `response.json()` itself throwing).
      `AmountRejected` is `parseEther` throwing on the price or the deposit,
      after the upload and before any call. */
  datatype SubmitOutcome =
    | ConnectPrompted
    | ImageMissing
    | UploadFailed(message: Option<string>)
    | AmountRejected
    | ListingFailed(call: ListingCall)
    | Listed(call: ListingCall)

  /** The selected image (only its identity matters here). */
  datatype ImageFile = ImageFile(name: string)

  /** The page's state. */
  class ListPropertyPage {
    var form: FormData
    var isSubmitting: bool
    var selectedImageFile: Option<ImageFile>
    var imagePreviewUrl: Option<string>

    constructor ()
      ensures form == InitialForm() && !isSubmitting
      ensures selectedImageFile.None? && imagePreviewUrl.None?
    {
      form := InitialForm();
      isSubmitting := false;
      selectedImageFile := None;
      imagePreviewUrl := None;
    }

    method HandleAmenitiesChange(amenity: string)
      modifies this`form
      ensures form == old(form).(amenities := ToggleAmenity(old(form).amenities, amenity))
    {
      form := form.(amenities := ToggleAmenity(form.amenities, amenity));
    }

    /** `handleChange` and `handleSelectChange`. */
    method HandleChange(field: Field, value: string)
      modifies this`form
      ensures form == WithField(old(form), field, value)
    {
      form := WithField(form, field, value);
    }

    /** The first chosen file becomes the image, with a fresh object URL
        (`previewUrl`) as its preview; an empty choice changes nothing. */
    method HandleImageUpload(files: seq<ImageFile>, previewUrl: string)
      modifies this`selectedImageFile, this`imagePreviewUrl
      ensures files == [] ==> selectedImageFile == old(selectedImageFile) && imagePreviewUrl == old(imagePreviewUrl)
      ensures files != [] ==> selectedImageFile == Some(files[0]) && imagePreviewUrl == Some(previewUrl)
    {
      if |files| > 0 {
        selectedImageFile := Some(files[0]);
        imagePreviewUrl := Some(previewUrl);
      }
    }

    /** `removeImage` clears both the file and its preview. */
    method RemoveImage()
      modifies this`selectedImageFile, this`imagePreviewUrl
      ensures selectedImageFile.None? && imagePreviewUrl.None?
    {
      selectedImageFile := None;
      imagePreviewUrl := None;
    }

    /** `handleSubmit`. The guards run in order: a wallet (else a connect
        prompt), an image; only then is the metadata uploaded (`uploaded`).
        A failed upload stops before the contract; `parseEther` may throw on
        the amounts; otherwise `listProperty` is called with the metadata
        hash last. Past the guards `isSubmitting` ends false. The parsed
        amounts and the date's epoch milliseconds are inputs. */
    method HandleSubmit(isConnected: bool, hasSigner: bool, account: Option<Address>,
                        upload: UploadReply, priceWei: Option<int>, depositWei: Option<int>,
                        availableFromMillis: Option<int>, tx: TxOutcome)
      returns (outcome: SubmitOutcome, uploaded: Option<BaseMetadata>)
      modifies this`isSubmitting
      ensures outcome == ConnectPrompted <==> !(isConnected && hasSigner && account.Some?)
      ensures outcome == ImageMissing <==> isConnected && hasSigner && account.Some? && selectedImageFile.None?
      ensures uploaded.Some? <==> isConnected && hasSigner && account.Some? && selectedImageFile.Some?
      ensures outcome == ConnectPrompted || outcome == ImageMissing <==> uploaded.None?
      ensures uploaded.None? ==> isSubmitting == old(isSubmitting)
      ensures uploaded.Some? ==> uploaded.value == BaseMetadataOf(form) && !isSubmitting
      ensures outcome.UploadFailed? <==> uploaded.Some? && UploadedHash(upload).None?
      ensures outcome.UploadFailed? ==>
                outcome.message == if upload.body.Some? then Some(UploadError(upload.body.value)) else None
      ensures outcome == AmountRejected <==> uploaded.Some? && UploadedHash(upload).Some?
                                             && (priceWei.None? || depositWei.None?)
      ensures outcome.Listed? || outcome.ListingFailed? ==>
                && UploadedHash(upload).Some? && priceWei.Some? && depositWei.Some?
                && outcome.call == ListingCall(form.location, priceWei.value, depositWei.value,
                                               ParseInt(form.bedrooms), ParseInt(form.bathrooms), ParseInt(form.area),
                                               AvailableFromTimestamp(availableFromMillis),
                                               ParseInt(form.minRentalPeriod), UploadedHash(upload).value)
      ensures outcome.Listed? <==> uploaded.Some? && UploadedHash(upload).Some? && priceWei.Some?
                                   && depositWei.Some? && tx == Confirmed
    {
      if !isConnected || !hasSigner || account.None? {
        return ConnectPrompted, None;
      }
      if selectedImageFile.None? {
        return ImageMissing, None;
      }
      isSubmitting := true;
      uploaded := Some(BaseMetadataOf(form));
      var hash := UploadedHash(upload);
      if hash.None? {
        outcome := UploadFailed(if upload.body.Some? then Some(UploadError(upload.body.value)) else None);
      } else if priceWei.None? || depositWei.None? {
        outcome := AmountRejected;
      } else {
        var call := ListingCall(form.location, priceWei.value, depositWei.value,
                                ParseInt(form.bedrooms), ParseInt(form.bathrooms), ParseInt(form.area),
                                AvailableFromTimestamp(availableFromMillis),
                                ParseInt(form.minRentalPeriod), hash.value);
        outcome := if tx == Confirmed then Listed(call) else ListingFailed(call);
      }
      isSubmitting := false;
    }
  }
}
