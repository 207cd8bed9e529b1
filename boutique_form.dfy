/** The new-boutique form of the admin zone
    (src/app/admin/boutiques/nouvelle/page.tsx): the checks run on submit and
    the WhatsApp number formatting applied as the number is typed. */
module BoutiqueForm {
  import opened Types
  import opened JsText

  /** The text fields of the form, as typed. An absent email is the empty string. */
  datatype BoutiqueFormData = BoutiqueFormData(
    nom_boutique: string,
    nom_vendeuse: string,
    prenom_vendeuse: string,
    numero_whatsapp: string,
    email: string,
    adresse: string,
    numero_depot: string)

  datatype BoutiqueField = NomBoutique | NomVendeuse | PrenomVendeuse | NumeroWhatsapp | Email | Adresse | NumeroDepot

  /** Which message a field shows; the wording itself is display text.
      `NoMessage` is the empty string a cleared error is set to. */
  datatype Message = Required | InvalidNumber | InvalidEmail | NoMessage

  // ---------------------------------------------------------------- number

  /** The characters `[\d+]` matches. */
  predicate IsDialChar(c: char) {
    IsDigit(c) || c == '+'
  }

  /** `value.replace(/[^\d+]/g, '')`. */
  function KeepDialChars(s: string): (r: string)
    ensures |r| <= |s|
    ensures forall i :: 0 <= i < |r| ==> IsDialChar(r[i])
    ensures (forall i :: 0 <= i < |s| ==> IsDialChar(s[i])) ==> r == s
  {
    if s == [] then []
    else if IsDialChar(s[0]) then [s[0]] + KeepDialChars(s[1..])
    else KeepDialChars(s[1..])
  }

  /** The characters `[\s\-]` matches. */
  predicate IsSeparator(c: char) {
    IsSpace(c) || c == '-'
  }

  /** `numero.replace(/[\s\-]/g, '')`. */
  function RemoveSeparators(s: string): (r: string)
    ensures |r| <= |s|
    ensures forall i :: 0 <= i < |r| ==> !IsSeparator(r[i])
    ensures (forall i :: 0 <= i < |s| ==> !IsSeparator(s[i])) ==> r == s
  {
    if s == [] then []
    else if IsSeparator(s[0]) then RemoveSeparators(s[1..])
    else [s[0]] + RemoveSeparators(s[1..])
  }

  /** `[0-9]{8,9}` on a whole string. */
  predicate LocalDigits(s: string) {
    8 <= |s| <= 9 && forall i :: 0 <= i < |s| ==> IsDigit(s[i])
  }

  /** `/^(\+?224|224)?[0-9]{8,9}$/`: eight or nine digits, possibly behind the
      country code `224` or `+224`. */
  predicate GuineaNumber(n: string) {
    || LocalDigits(n)
    || (StartsWith(n, "224") && LocalDigits(n[3..]))
    || (StartsWith(n, "+224") && LocalDigits(n[4..]))
  }

  /** An accepted number is 8 to 13 characters, all digits except a leading
      `+`, which only ever introduces the country code. */
  lemma GuineaNumberShape(n: string)
    requires GuineaNumber(n)
    ensures 8 <= |n| <= 13
    ensures forall i :: 1 <= i < |n| ==> IsDigit(n[i])
    ensures IsDigit(n[0]) || StartsWith(n, "+224")
  {
    if StartsWith(n, "224") && LocalDigits(n[3..]) {
      assert n == n[..3] + n[3..];
      forall i | 1 <= i < |n| ensures IsDigit(n[i]) {
        if i >= 3 {
          assert n[i] == n[3..][i - 3];
        } else {
          assert n[i] == n[..3][i];
        }
      }
    } else if StartsWith(n, "+224") && LocalDigits(n[4..]) {
      assert n == n[..4] + n[4..];
      forall i | 1 <= i < |n| ensures IsDigit(n[i]) {
        if i >= 4 {
          assert n[i] == n[4..][i - 4];
        } else {
          assert n[i] == n[..4][i];
        }
      }
    }
  }

  /** The WhatsApp branch of `handleInputChange`: keep the digits and `+`
      signs, put a `+` before a leading `224`, and `+224` before anything that
      starts with neither `+` nor `224`. */
  function AutoFormat(value: string): (r: string)
    ensures |r| >= 1 && r[0] == '+'
    ensures forall i :: 0 <= i < |r| ==> IsDialChar(r[i])
    ensures var c := KeepDialChars(value);
      || (StartsWith(c, "224") && r == "+" + c)
      || (!StartsWith(c, "+") && !StartsWith(c, "224") && r == "+224" + c)
      || (StartsWith(c, "+") && r == c)
  {
    var cleaned := KeepDialChars(value);
    if StartsWith(cleaned, "224") && !StartsWith(cleaned, "+224") then "+" + cleaned
    else if !StartsWith(cleaned, "+") && !StartsWith(cleaned, "224") then "+224" + cleaned
    else cleaned
  }

  /** Formatting a formatted number changes nothing, so the formatting applied
      at every keystroke never piles up prefixes. */
  lemma AutoFormatIdempotent(value: string)
    ensures AutoFormat(AutoFormat(value)) == AutoFormat(value)
  {
    var r := AutoFormat(value);
    assert KeepDialChars(r) == r;
    assert StartsWith(r, "+");
  }

  /** A formatted number holds no space or dash, so the submit check reads it
      as it stands. */
  lemma FormattedHasNoSeparator(value: string)
    ensures RemoveSeparators(AutoFormat(value)) == AutoFormat(value)
  {
  }

  lemma DigitsBehind(p: string, c: string)
    requires LocalDigits(c)
    ensures StartsWith(p + c, p) && (p + c)[|p|..] == c
  {
    assert (p + c)[..|p|] == p;
  }

  /** Typing an accepted number gives an accepted formatted number, except a
      nine-digit local number that happens to start with `224`: the formatter
      takes those digits for the country code. */
  lemma AutoFormatKeepsAccepted(value: string)
    requires GuineaNumber(KeepDialChars(value))
    requires !(LocalDigits(KeepDialChars(value)) && StartsWith(KeepDialChars(value), "224"))
    ensures GuineaNumber(AutoFormat(value))
  {
    var c := KeepDialChars(value);
    if LocalDigits(c) {
      assert !StartsWith(c, "+") by { assert IsDigit(c[0]); }
      DigitsBehind("+224", c);
    } else if StartsWith(c, "224") && LocalDigits(c[3..]) {
      assert "+" + c == "+224" + c[3..] by { assert c == "224" + c[3..]; }
      DigitsBehind("+224", c[3..]);
    }
  }

  /** The exception: a nine-digit local number starting with `224` is
      accepted as typed but not once formatted. */
  lemma AutoFormatLocal224(value: string)
    requires LocalDigits(KeepDialChars(value)) && |KeepDialChars(value)| == 9
    requires StartsWith(KeepDialChars(value), "224")
    ensures GuineaNumber(KeepDialChars(value))
    ensures AutoFormat(value) == "+" + KeepDialChars(value)
    ensures !GuineaNumber(AutoFormat(value))
  {
    var r := AutoFormat(value);
    assert !LocalDigits(r) by { assert !IsDigit(r[0]); }
    assert !StartsWith(r, "224") by { assert r[0] != '2'; }
    assert |r[4..]| == 6;
  }

  // ---------------------------------------------------------------- email

  /** The characters `[^\s@]` matches. */
  predicate IsEmailChar(c: char) {
    !IsSpace(c) && c != '@'
  }

  /** `[^\s@]+` on a whole string. */
  predicate EmailPart(s: string) {
    |s| >= 1 && forall i :: 0 <= i < |s| ==> IsEmailChar(s[i])
  }

  /** `/^[^\s@]+@[^\s@]+\.[^\s@]+$/`: a local part, an `@`, and a domain with a
      dot that has something on each side, with no white space or other `@`. */
  predicate EmailShape(s: string) {
    exists i, k :: 0 < i && i + 1 < k < |s| - 1 && s[i] == '@' && s[k] == '.'
      && EmailPart(s[..i]) && EmailPart(s[i + 1..k]) && EmailPart(s[k + 1..])
  }

  /** No character of `s` is white space. */
  predicate NoSpace(s: string) {
    forall j :: 0 <= j < |s| ==> !IsSpace(s[j])
  }

  /** Position `i` holds the only `@` of `s`. */
  predicate OnlyAt(s: string, i: int) {
    0 <= i < |s| && s[i] == '@' && forall j :: 0 <= j < |s| && s[j] == '@' ==> j == i
  }

  /** A dot stands after position `i + 1` and before the last position. */
  predicate DotAfter(s: string, i: int) {
    exists k :: 0 <= i + 1 < k < |s| - 1 && s[k] == '.'
  }

  /** The pattern read character by character: no white space, exactly one
      `@`, not first, and a dot after it that is neither right after it nor last. */
  predicate EmailScan(s: string) {
    NoSpace(s) && exists i :: 0 < i < |s| && OnlyAt(s, i) && DotAfter(s, i)
  }

  /** Every character of a part of `s` that matches `[^\s@]+` is neither
      white space nor `@`. */
  lemma PartChar(s: string, lo: int, hi: int, j: int)
    requires 0 <= lo <= j < hi <= |s| && EmailPart(s[lo..hi])
    ensures IsEmailChar(s[j])
  {
    assert s[j] == s[lo..hi][j - lo];
  }

  lemma EmailShapeScans(s: string)
    requires EmailShape(s)
    ensures EmailScan(s)
  {
    var i, k :| 0 < i && i + 1 < k < |s| - 1 && s[i] == '@' && s[k] == '.'
      && EmailPart(s[..i]) && EmailPart(s[i + 1..k]) && EmailPart(s[k + 1..]);
    assert s[..i] == s[0..i] && s[k + 1..] == s[k + 1..|s|];
    forall j | 0 <= j < |s| ensures !IsSpace(s[j]) && (s[j] == '@' ==> j == i) {
      if j < i {
        PartChar(s, 0, i, j);
      } else if i < j < k {
        PartChar(s, i + 1, k, j);
      } else if k < j {
        PartChar(s, k + 1, |s|, j);
      }
    }
    assert OnlyAt(s, i) && DotAfter(s, i);
  }

  lemma EmailScanShapes(s: string)
    requires EmailScan(s)
    ensures EmailShape(s)
  {
    var i :| 0 < i < |s| && OnlyAt(s, i) && DotAfter(s, i);
    var k :| i + 1 < k < |s| - 1 && s[k] == '.';
    assert EmailPart(s[..i]);
    assert EmailPart(s[i + 1..k]);
    assert EmailPart(s[k + 1..]);
  }

  /** The regular expression and the character-by-character reading agree. */
  lemma EmailShapeIff(s: string)
    ensures EmailShape(s) <==> EmailScan(s)
  {
    if EmailShape(s) {
      EmailShapeScans(s);
    }
    if EmailScan(s) {
      EmailScanShapes(s);
    }
  }

  // ---------------------------------------------------------------- submit

  /** The message `validateForm` records for one field, if any. */
  function FieldMessage(f: BoutiqueFormData, field: BoutiqueField): (m: Option<Message>)
    ensures m.Some? ==> m.value != NoMessage
    ensures field == Adresse || field == NumeroDepot ==> m.None?
  {
    match field
    case NomBoutique => if IsBlank(f.nom_boutique) then Some(Required) else None
    case NomVendeuse => if IsBlank(f.nom_vendeuse) then Some(Required) else None
    case PrenomVendeuse => if IsBlank(f.prenom_vendeuse) then Some(Required) else None
    case NumeroWhatsapp =>
      if IsBlank(f.numero_whatsapp) then Some(Required)
      else if !GuineaNumber(RemoveSeparators(f.numero_whatsapp)) then Some(InvalidNumber)
      else None
    case Email => if f.email != "" && !EmailShape(f.email) then Some(InvalidEmail) else None
    case Adresse => None
    case NumeroDepot => None
  }

  const AllFields: set<BoutiqueField> := {NomBoutique, NomVendeuse, PrenomVendeuse, NumeroWhatsapp, Email, Adresse, NumeroDepot}

  /** `validateForm`: the messages recorded, by field. */
  function ValidateBoutique(f: BoutiqueFormData): (errors: map<BoutiqueField, Message>)
    ensures forall k :: k in errors <==> FieldMessage(f, k).Some?
    ensures forall k :: k in errors ==> errors[k] == FieldMessage(f, k).value
  {
    map k | k in AllFields && FieldMessage(f, k).Some? :: FieldMessage(f, k).value
  }

  /** The value `validateForm` returns: no error key was recorded. */
  predicate BoutiqueFormValid(f: BoutiqueFormData) {
    ValidateBoutique(f).Keys == {}
  }

  /** The form is accepted exactly when the three names and the number are
      not blank, the number (spaces and dashes aside) is a Guinean number, and
      the email, if any, has the shape of an address. */
  lemma BoutiqueFormValidIff(f: BoutiqueFormData)
    ensures BoutiqueFormValid(f) <==>
      && !IsBlank(f.nom_boutique) && !IsBlank(f.nom_vendeuse) && !IsBlank(f.prenom_vendeuse)
      && !IsBlank(f.numero_whatsapp) && GuineaNumber(RemoveSeparators(f.numero_whatsapp))
      && (f.email == "" || EmailShape(f.email))
  {
    NoMessageIsValid(f);
    if && FieldMessage(f, NomBoutique).None? && FieldMessage(f, NomVendeuse).None?
       && FieldMessage(f, PrenomVendeuse).None? && FieldMessage(f, NumeroWhatsapp).None?
       && FieldMessage(f, Email).None?
    {
      forall k ensures FieldMessage(f, k).None? {
      }
    }
  }

  /** The form is accepted exactly when no field has a message. */
  lemma NoMessageIsValid(f: BoutiqueFormData)
    ensures BoutiqueFormValid(f) <==> forall k :: FieldMessage(f, k).None?
  {
    var errors := ValidateBoutique(f);
    if errors.Keys != {} {
      var k :| k in errors;
      assert FieldMessage(f, k).Some?;
    }
  }

  // ---------------------------------------------------------------- typing

  datatype BoutiqueFormState = BoutiqueFormState(data: BoutiqueFormData, errors: map<BoutiqueField, Message>)

  function FieldValue(d: BoutiqueFormData, field: BoutiqueField): string {
    match field
    case NomBoutique => d.nom_boutique
    case NomVendeuse => d.nom_vendeuse
    case PrenomVendeuse => d.prenom_vendeuse
    case NumeroWhatsapp => d.numero_whatsapp
    case Email => d.email
    case Adresse => d.adresse
    case NumeroDepot => d.numero_depot
  }

  /** `{ ...prev, [field]: value }`. */
  function WithField(d: BoutiqueFormData, field: BoutiqueField, value: string): (r: BoutiqueFormData)
    ensures FieldValue(r, field) == value
    ensures forall g :: g != field ==> FieldValue(r, g) == FieldValue(d, g)
  {
    match field
    case NomBoutique => d.(nom_boutique := value)
    case NomVendeuse => d.(nom_vendeuse := value)
    case PrenomVendeuse => d.(prenom_vendeuse := value)
    case NumeroWhatsapp => d.(numero_whatsapp := value)
    case Email => d.(email := value)
    case Adresse => d.(adresse := value)
    case NumeroDepot => d.(numero_depot := value)
  }

  /** `errors[field]` is truthy: recorded with a non-empty message. */
  predicate Shown(errors: map<BoutiqueField, Message>, field: BoutiqueField) {
    field in errors && errors[field] != NoMessage
  }

  /** `handleInputChange(field, value)`: store the value (the number
      formatted), and clear the field's message if one is shown. */
  function ChangeBoutiqueField(st: BoutiqueFormState, field: BoutiqueField, value: string): (r: BoutiqueFormState)
    ensures FieldValue(r.data, field) == if field == NumeroWhatsapp then AutoFormat(value) else value
    ensures forall g :: g != field ==> FieldValue(r.data, g) == FieldValue(st.data, g)
    ensures r.errors.Keys == st.errors.Keys && !Shown(r.errors, field)
    ensures forall g :: g != field && g in st.errors ==> r.errors[g] == st.errors[g]
  {
    var data := WithField(st.data, field, value);
    var errors := if Shown(st.errors, field) then st.errors[field := NoMessage] else st.errors;
    if field == NumeroWhatsapp then BoutiqueFormState(WithField(data, NumeroWhatsapp, AutoFormat(value)), errors)
    else BoutiqueFormState(data, errors)
  }

  /** Once the number has been typed, it is never reported as missing. */
  lemma TypedNumberNeverBlank(st: BoutiqueFormState, value: string)
    ensures var f := ChangeBoutiqueField(st, NumeroWhatsapp, value).data;
      !IsBlank(f.numero_whatsapp) && FieldMessage(f, NumeroWhatsapp) != Some(Required)
  {
    var n := ChangeBoutiqueField(st, NumeroWhatsapp, value).data.numero_whatsapp;
    BlankIffAllSpace(n);
    assert !IsSpace(n[0]);
  }
}
