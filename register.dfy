/** Registration: the tenant slug derived from the business name, the order of
    the client-side checks before the register request, and the clearing of
    field errors as the user types. */
module Register {
  import opened Common

  // ---------------------------------------------------------------------------
  // generateSlug.

  predicate IsSlugChar(c: char) {
    'a' <= c <= 'z' || '0' <= c <= '9'
  }

  /** The six Turkish lower-case letters the slug spells in ASCII. */
  function TurkishFold(c: char): (r: char)
    ensures c == '\U{011F}' ==> r == 'g'   // ğ
    ensures c == '\U{00FC}' ==> r == 'u'   // ü
    ensures c == '\U{015F}' ==> r == 's'   // ş
    ensures c == '\U{0131}' ==> r == 'i'   // ı
    ensures c == '\U{00F6}' ==> r == 'o'   // ö
    ensures c == '\U{00E7}' ==> r == 'c'   // ç
    ensures IsSlugChar(c) ==> r == c
  {
    if c == '\U{011F}' then 'g'
    else if c == '\U{00FC}' then 'u'
    else if c == '\U{015F}' then 's'
    else if c == '\U{0131}' then 'i'
    else if c == '\U{00F6}' then 'o'
    else if c == '\U{00E7}' then 'c'
    else c
  }

  predicate IsTurkishLower(c: char) {
    c == '\U{011F}' || c == '\U{00FC}' || c == '\U{015F}' || c == '\U{0131}' || c == '\U{00F6}' || c == '\U{00E7}'
  }

  /** The six replace calls: every Turkish letter by its ASCII letter. */
  function Fold(s: string): (r: string)
    ensures |r| == |s|
    ensures forall i :: 0 <= i < |s| ==> r[i] == TurkishFold(s[i])
  {
    if s == [] then [] else [TurkishFold(s[0])] + Fold(s[1..])
  }

  /** `s` without its leading characters outside a-z and 0-9. */
  function DropRun(s: string): (r: string)
    ensures |r| <= |s|
    ensures r == [] || IsSlugChar(r[0])
  {
    if s != [] && !IsSlugChar(s[0]) then DropRun(s[1..]) else s
  }

  /** replace(/[^a-z0-9]+/g, '-'): each run of other characters becomes one '-'. */
  function Collapse(s: string): (r: string)
    ensures s != [] && IsSlugChar(s[0]) ==> r != [] && r[0] == s[0]
    decreases |s|
  {
    if s == [] then []
    else if IsSlugChar(s[0]) then [s[0]] + Collapse(s[1..])
    else ['-'] + Collapse(DropRun(s))
  }

  function StripLeading(s: string): (r: string)
    ensures |r| <= |s| && r == s[|s| - |r|..]
    ensures r == [] || r[0] != '-'
  {
    if s != [] && s[0] == '-' then StripLeading(s[1..]) else s
  }

  function StripTrailing(s: string): (r: string)
    ensures |r| <= |s| && r == s[..|r|]
    ensures r == [] || r[|r| - 1] != '-'
  {
    if s != [] && s[|s| - 1] == '-' then StripTrailing(s[..|s| - 1]) else s
  }

  /** replace(/^-+|-+$/g, ''). */
  function StripDashes(s: string): string {
    StripTrailing(StripLeading(s))
  }

  predicate SlugChars(s: string) {
    forall i :: 0 <= i < |s| ==> IsSlugChar(s[i]) || s[i] == '-'
  }

  predicate NoDoubleDash(s: string) {
    forall i :: 0 <= i < |s| - 1 ==> !(s[i] == '-' && s[i + 1] == '-')
  }

  /** A well-formed slug: only a-z, 0-9 and '-', no '-' at either end and no
      two in a row. */
  predicate IsSlug(s: string) {
    SlugChars(s) && NoDoubleDash(s) && (s != [] ==> s[0] != '-' && s[|s| - 1] != '-')
  }

  /** Collapse leaves only a-z, 0-9 and single '-' characters. */
  lemma {:induction false} CollapseShape(s: string)
    ensures SlugChars(Collapse(s)) && NoDoubleDash(Collapse(s))
    decreases |s|
  {
    if s != [] {
      if IsSlugChar(s[0]) {
        CollapseShape(s[1..]);
        var r := Collapse(s);
        assert r == [s[0]] + Collapse(s[1..]);
      } else {
        var t := DropRun(s);
        CollapseShape(t);
        var r := Collapse(s);
        assert r == ['-'] + Collapse(t);
        assert Collapse(t) != [] ==> Collapse(t)[0] != '-';
      }
    }
  }

  /** The slug pipeline after lower-casing. */
  function SlugOfLowered(lowered: string): string {
    StripDashes(Collapse(Fold(lowered)))
  }

  /** generateSlug as written: JavaScript's toLowerCase, then the pipeline. */
  function GenerateSlug(name: string): string {
    SlugOfLowered(Lower(name))
  }

  lemma SliceKeepsSlugShape(s: string, lo: nat, hi: nat)
    requires lo <= hi <= |s|
    requires SlugChars(s) && NoDoubleDash(s)
    ensures SlugChars(s[lo..hi]) && NoDoubleDash(s[lo..hi])
  {
    var t := s[lo..hi];
    forall i | 0 <= i < |t| - 1 ensures !(t[i] == '-' && t[i + 1] == '-') {
      assert t[i] == s[lo + i] && t[i + 1] == s[lo + i + 1];
    }
  }

  lemma StripDashesIsSlug(s: string)
    requires SlugChars(s) && NoDoubleDash(s)
    ensures IsSlug(StripDashes(s))
  {
    var a := StripLeading(s);
    SliceKeepsSlugShape(s, |s| - |a|, |s|);
    var b := StripTrailing(a);
    SliceKeepsSlugShape(a, 0, |b|);
    if b != [] {
      assert b[0] == a[0];
    }
  }

  /** Every slug is well formed. */
  lemma SlugIsWellFormed(lowered: string)
    ensures IsSlug(SlugOfLowered(lowered))
  {
    CollapseShape(Fold(lowered));
    StripDashesIsSlug(Collapse(Fold(lowered)));
  }

  /** The slug pipeline keeps a word made of a-z and 0-9 as it is. */
  lemma {:induction false} CollapseKeepsWord(s: string)
    requires forall i :: 0 <= i < |s| ==> IsSlugChar(s[i])
    ensures Collapse(s) == s
  {
    if s != [] {
      CollapseKeepsWord(s[1..]);
    }
  }

  /** Collapse leaves a well-formed slug alone. */
  lemma {:induction false} CollapseKeepsSlug(s: string)
    requires SlugChars(s) && NoDoubleDash(s)
    requires s == [] || IsSlugChar(s[0])
    ensures Collapse(s) == s
    decreases |s|
  {
    if s != [] {
      if |s| == 1 {
        CollapseKeepsSlug(s[1..]);
      } else if IsSlugChar(s[1]) {
        CollapseKeepsSlug(s[1..]);
      } else {
        // s[1] is a single '-' followed by a slug character or nothing
        var t := s[2..];
        assert s[1] == '-';
        assert t == [] || IsSlugChar(t[0]);
        assert DropRun(s[1..]) == t by {
          assert DropRun(s[1..]) == DropRun(t);
        }
        CollapseKeepsSlug(t);
        assert Collapse(s[1..]) == ['-'] + t;
        assert s == [s[0]] + (['-'] + t);
      }
    }
  }

  lemma {:induction false} LowerKeepsSlug(s: string)
    requires forall i :: 0 <= i < |s| ==> IsSlugChar(s[i]) || s[i] == '-'
    ensures Lower(s) == s
  {
    if s != [] {
      LowerKeepsSlug(s[1..]);
    }
  }

  lemma FoldKeepsSlug(s: string)
    requires forall i :: 0 <= i < |s| ==> IsSlugChar(s[i]) || s[i] == '-'
    ensures Fold(s) == s
  {
  }

  lemma StripKeepsSlug(s: string)
    requires IsSlug(s)
    ensures StripDashes(s) == s
  {
  }

  /** generateSlug is idempotent: a slug is its own slug. */
  lemma GenerateSlugIdempotent(name: string)
    ensures GenerateSlug(GenerateSlug(name)) == GenerateSlug(name)
  {
    var s := GenerateSlug(name);
    SlugIsWellFormed(Lower(name));
    LowerKeepsSlug(s);
    FoldKeepsSlug(s);
    CollapseKeepsSlug(s);
    StripKeepsSlug(s);
  }

  /** A lower-case word of ASCII letters, digits and the six Turkish letters
      becomes the same word spelled in ASCII. */
  lemma TurkishWordSlug(word: string)
    requires forall i :: 0 <= i < |word| ==> IsSlugChar(word[i]) || IsTurkishLower(word[i])
    ensures GenerateSlug(word) == Fold(word)
    ensures |GenerateSlug(word)| == |word|
  {
    LowerKeepsWord(word);
    var f := Fold(word);
    assert forall i :: 0 <= i < |f| ==> IsSlugChar(f[i]);
    CollapseKeepsWord(f);
    if f != [] {
      assert StripLeading(f) == f;
      assert StripTrailing(f) == f;
    }
  }

  lemma {:induction false} LowerKeepsWord(s: string)
    requires forall i :: 0 <= i < |s| ==> IsSlugChar(s[i]) || IsTurkishLower(s[i])
    ensures Lower(s) == s
  {
    if s != [] {
      LowerKeepsWord(s[1..]);
    }
  }

  // ---------------------------------------------------------------------------
  // Capital dotted I: the as-written slug breaks the word, the intended one
  // does not.

  predicate IsSlugWord(w: string) {
    forall i :: 0 <= i < |w| ==> IsSlugChar(w[i])
  }

  lemma {:induction false} LowerDottedWord(w: string)
    requires IsSlugWord(w)
    ensures Lower([DottedCapitalI] + w) == ['i', CombiningDot] + w
  {
    var s := [DottedCapitalI] + w;
    assert s[1..] == w;
    LowerKeepsSlug(w);
  }

  lemma {:induction false} FoldDottedWord(w: string)
    requires IsSlugWord(w)
    ensures Fold(['i', CombiningDot] + w) == ['i', CombiningDot] + w
  {
    var s := ['i', CombiningDot] + w;
    forall i | 0 <= i < |s| ensures TurkishFold(s[i]) == s[i] {
      if i >= 2 {
        assert s[i] == w[i - 2];
      }
    }
  }

  lemma {:induction false} CollapseSlugHead(c: char, t: string)
    requires IsSlugChar(c)
    ensures Collapse([c] + t) == [c] + Collapse(t)
  {
    assert ([c] + t)[1..] == t;
  }

  lemma {:induction false} CollapseOtherHead(c: char, t: string)
    requires !IsSlugChar(c) && t != [] && IsSlugChar(t[0])
    ensures Collapse([c] + t) == ['-'] + Collapse(t)
  {
    var s := [c] + t;
    assert s[1..] == t;
    assert DropRun(s) == DropRun(t) == t;
  }

  lemma {:induction false} CollapsePair(a: char, d: char, w: string)
    requires IsSlugChar(a) && !IsSlugChar(d) && w != [] && IsSlugChar(w[0])
    ensures Collapse([a, d] + w) == [a, '-'] + Collapse(w)
  {
    var t := [d] + w;
    CollapseOtherHead(d, w);
    CollapseSlugHead(a, t);
    assert [a, d] + w == [a] + t;
    assert [a] + (['-'] + Collapse(w)) == [a, '-'] + Collapse(w);
  }

  lemma {:induction false} CollapseDottedWord(w: string)
    requires w != [] && IsSlugWord(w)
    ensures Collapse(['i', CombiningDot] + w) == ['i', '-'] + w
  {
    CollapsePair('i', CombiningDot, w);
    CollapseKeepsWord(w);
  }

  /** toLowerCase turns İ into "i" and a combining dot above, which is not in
      a-z and so becomes a '-': a word that starts with İ gets a '-' after its
      first letter. */
  lemma {:induction false} DottedCapitalIBreaksSlug(w: string)
    requires w != [] && IsSlugWord(w)
    ensures GenerateSlug([DottedCapitalI] + w) == ['i', '-'] + w
  {
    LowerDottedWord(w);
    FoldDottedWord(w);
    CollapseDottedWord(w);
    var r := ['i', '-'] + w;
    assert StripLeading(r) == r;
    assert r[|r| - 1] == w[|w| - 1];
    assert StripTrailing(r) == r;
  }

  /** "İstanbul" gives "i-stanbul". */
  lemma IstanbulSlug()
    ensures GenerateSlug([DottedCapitalI] + "stanbul") == "i-stanbul"
  {
    var w := "stanbul";
    assert IsSlugWord(w);
    DottedCapitalIBreaksSlug(w);
  }

  /** Lower-casing as the slug means it: capital dotted I becomes a plain "i". */
  function LowerForSlug(s: string): (r: string)
    ensures |r| == |s|
  {
    if s == [] then []
    else (if s[0] == DottedCapitalI then "i" else LowerChar(s[0])) + LowerForSlug(s[1..])
  }

  /** generateSlug with capital dotted I lower-cased to "i". */
  function GenerateSlugCorrected(name: string): string {
    SlugOfLowered(LowerForSlug(name))
  }

  /** Letters the corrected slug spells without breaking a word: ASCII letters
      and digits, and the Turkish letters in either case. */
  predicate IsWordChar(c: char) {
    'a' <= c <= 'z' || 'A' <= c <= 'Z' || '0' <= c <= '9' || IsTurkishLower(c) ||
    c == '\U{011E}' || c == '\U{00DC}' || c == '\U{015E}' || c == '\U{00D6}' || c == '\U{00C7}' || c == DottedCapitalI
  }

  lemma {:induction false} LowerForSlugOfWord(s: string)
    requires forall i :: 0 <= i < |s| ==> IsWordChar(s[i])
    ensures forall i :: 0 <= i < |LowerForSlug(s)| ==>
      IsSlugChar(LowerForSlug(s)[i]) || IsTurkishLower(LowerForSlug(s)[i])
  {
    if s != [] {
      LowerForSlugOfWord(s[1..]);
      var head := if s[0] == DottedCapitalI then "i" else LowerChar(s[0]);
      assert |head| == 1;
      assert LowerForSlug(s) == head + LowerForSlug(s[1..]);
    }
  }

  /** The intended property: one word, whatever its letters' case, gives a
      slug of the same length without any '-'. */
  lemma CorrectedSlugKeepsWords(word: string)
    requires forall i :: 0 <= i < |word| ==> IsWordChar(word[i])
    ensures |GenerateSlugCorrected(word)| == |word|
    ensures forall i :: 0 <= i < |GenerateSlugCorrected(word)| ==> IsSlugChar(GenerateSlugCorrected(word)[i])
  {
    var l := LowerForSlug(word);
    LowerForSlugOfWord(word);
    var f := Fold(l);
    assert forall i :: 0 <= i < |f| ==> IsSlugChar(f[i]);
    CollapseKeepsWord(f);
    if f != [] {
      assert StripLeading(f) == f;
      assert StripTrailing(f) == f;
    }
  }

  /** The corrected slug still agrees with the written one on every name
      without a capital dotted I. */
  lemma {:induction false} CorrectedAgreesWithoutDottedI(name: string)
    requires DottedCapitalI !in name
    ensures GenerateSlugCorrected(name) == GenerateSlug(name)
  {
    LowerForSlugIsLower(name);
  }

  lemma {:induction false} LowerForSlugIsLower(s: string)
    requires DottedCapitalI !in s
    ensures LowerForSlug(s) == Lower(s)
  {
    if s != [] {
      assert s[0] in s;
      assert forall c :: c in s[1..] ==> c in s;
      LowerForSlugIsLower(s[1..]);
    }
  }

  // ---------------------------------------------------------------------------
  // handleRegister.

  datatype RegisterForm = RegisterForm(fullName: string, email: string, phone: string, businessName: string,
                                       password: string, confirmPassword: string, acceptTerms: bool)

  datatype RegisterRequest = RegisterRequest(name: string, email: string, tenantName: string,
                                             tenantSlug: string, password: string)

  datatype RegisterOutcome = Rejected(message: string) | Submitted(request: RegisterRequest)

  const PasswordMismatch := "\U{015E}ifreler e\U{015F}le\U{015F}miyor"
  const PasswordTooShort := "\U{015E}ifre en az 6 karakter olmal\U{0131}d\U{0131}r"
  const TermsNotAccepted := "Kullan\U{0131}m \U{015F}artlar\U{0131}n\U{0131} kabul etmelisiniz"

  const MinPasswordLength := 6

  /** The checks run in order and the first that fails decides the message;
      only a form passing all three is sent, with generateSlug of the
      business name as written. */
  function HandleRegister(form: RegisterForm): (r: RegisterOutcome)
    ensures form.password != form.confirmPassword ==> r == Rejected(PasswordMismatch)
    ensures form.password == form.confirmPassword && |form.password| < MinPasswordLength ==>
      r == Rejected(PasswordTooShort)
    ensures form.password == form.confirmPassword && |form.password| >= MinPasswordLength && !form.acceptTerms ==>
      r == Rejected(TermsNotAccepted)
    ensures r.Submitted? <==>
      form.password == form.confirmPassword && |form.password| >= MinPasswordLength && form.acceptTerms
    ensures r.Submitted? ==>
      (r.request.tenantSlug == GenerateSlug(form.businessName) &&
       IsSlug(r.request.tenantSlug) && r.request.name == form.fullName && r.request.email == form.email &&
       r.request.tenantName == form.businessName && r.request.password == form.password)
  {
    if form.password != form.confirmPassword then Rejected(PasswordMismatch)
    else if |form.password| < MinPasswordLength then Rejected(PasswordTooShort)
    else if !form.acceptTerms then Rejected(TermsNotAccepted)
    else
      SlugIsWellFormed(Lower(form.businessName));
      Submitted(RegisterRequest(form.fullName, form.email, form.businessName,
                                GenerateSlug(form.businessName), form.password))
  }

  /** A business name without U+0130 is sent with the corrected slug: the
      request differs from the intended one only for names holding it. */
  lemma RegisterSlugWithoutDottedI(form: RegisterForm)
    requires DottedCapitalI !in form.businessName
    ensures HandleRegister(form).Submitted? ==>
      HandleRegister(form).request.tenantSlug == GenerateSlugCorrected(form.businessName)
  {
    CorrectedAgreesWithoutDottedI(form.businessName);
  }

  // ---------------------------------------------------------------------------
  // handleChange.

  datatype TextField = FullName | Email | Phone | BusinessName | Password | ConfirmPassword

  datatype Change = TextChange(field: TextField, value: string) | TermsChange(checked: bool)

  function FieldName(c: Change): string {
    match c
    case TermsChange(_) => "acceptTerms"
    case TextChange(f, _) =>
      match f
      case FullName => "fullName"
      case Email => "email"
      case Phone => "phone"
      case BusinessName => "businessName"
      case Password => "password"
      case ConfirmPassword => "confirmPassword"
  }

  /** The text of one field of the form. */
  function Text(form: RegisterForm, f: TextField): string {
    match f
    case FullName => form.fullName
    case Email => form.email
    case Phone => form.phone
    case BusinessName => form.businessName
    case Password => form.password
    case ConfirmPassword => form.confirmPassword
  }

  function Apply(form: RegisterForm, c: Change): RegisterForm {
    match c
    case TermsChange(checked) => form.(acceptTerms := checked)
    case TextChange(f, v) =>
      match f
      case FullName => form.(fullName := v)
      case Email => form.(email := v)
      case Phone => form.(phone := v)
      case BusinessName => form.(businessName := v)
      case Password => form.(password := v)
      case ConfirmPassword => form.(confirmPassword := v)
  }

  /** Field errors from the server: a list of messages, or null once cleared. */
  type FieldErrors = map<string, Option<seq<string>>>

  predicate IsBusinessName(c: Change) {
    c.TextChange? && c.field == BusinessName
  }

  /** The field's own error is nulled if it had one; a business-name change
      also nulls the tenant_slug and slug errors; every other error stays. */
  function ClearErrors(errors: FieldErrors, c: Change): (r: FieldErrors)
    ensures FieldName(c) in errors && errors[FieldName(c)].Some? ==> FieldName(c) in r && r[FieldName(c)].None?
    ensures IsBusinessName(c) ==> "tenant_slug" in r && r["tenant_slug"].None? && "slug" in r && r["slug"].None?
    ensures forall k :: k in errors ==> k in r
    ensures forall k :: k in r && !(k in errors && r[k] == errors[k]) ==>
      r[k].None? && (k == FieldName(c) || (IsBusinessName(c) && (k == "tenant_slug" || k == "slug")))
  {
    var name := FieldName(c);
    var own := if name in errors && errors[name].Some? then errors[name := None] else errors;
    if IsBusinessName(c) then own["tenant_slug" := None]["slug" := None] else own
  }

  /** handleChange: the checkbox sets acceptTerms and a text input sets its
      own field; every other field keeps its value, and the errors are
      cleared as above. */
  function HandleChange(form: RegisterForm, errors: FieldErrors, c: Change): (r: (RegisterForm, FieldErrors))
    ensures c.TermsChange? ==> r.0.acceptTerms == c.checked && forall f :: Text(r.0, f) == Text(form, f)
    ensures c.TextChange? ==> Text(r.0, c.field) == c.value && r.0.acceptTerms == form.acceptTerms
    ensures c.TextChange? ==> forall f :: f != c.field ==> Text(r.0, f) == Text(form, f)
    ensures r.1 == ClearErrors(errors, c)
  {
    (Apply(form, c), ClearErrors(errors, c))
  }
}
