/**
 * The admin form (src/components/Dashboard.tsx): a draft copy of the
 * banner, the validator that guards submission, the single-field update
 * behind every input, and the submit sequence around the awaited
 * `onUpdateBanner` call.
 */
module Dashboard {
  import opened BannerTypes

  /** The four messages the form can show; `Message` is the text displayed. */
  datatype FormError = DescriptionRequired | LinkInvalid | TimerInvalid | UpdateFailed {
    function Message(): string {
      match this
      case DescriptionRequired => "Description is required."
      case LinkInvalid => "Link must be a valid URL."
      case TimerInvalid => "Timer must be a non-negative integer."
      case UpdateFailed => "Failed to update banner. Please try again."
    }
  }

  /** Distinct errors show distinct texts, so the error kind is the message. */
  lemma MessagesDistinct(e: FormError, f: FormError)
    requires e != f
    ensures e.Message() != f.Message()
  {
  }

  /** The draft before any banner has been loaded. */
  const DefaultDraft := BannerData(None, "", "", Int(60), false)

  /** Line terminators: what a regular-expression `.` does not match. */
  predicate IsLineTerminator(c: char) {
    var n := c as int;
    n == 0x0A || n == 0x0D || n == 0x2028 || n == 0x2029
  }

  /** JavaScript white space and line terminators: what `String.prototype.trim` removes. */
  predicate IsJsWhitespace(c: char) {
    var n := c as int;
    || n == 0x09 || n == 0x0B || n == 0x0C || n == 0x20 || n == 0xA0
    || n == 0x1680 || 0x2000 <= n <= 0x200A || n == 0x202F || n == 0x205F
    || n == 0x3000 || n == 0xFEFF
    || IsLineTerminator(c)
  }

  predicate IsBlank(s: string) {
    forall i | 0 <= i < |s| :: IsJsWhitespace(s[i])
  }

  /** Drops leading white space: what is left is a suffix that starts with a non-blank character. */
  function TrimStart(s: string): (r: string)
    ensures |r| <= |s| && r == s[|s| - |r|..]
    ensures IsBlank(s[..|s| - |r|])
    ensures r == [] || !IsJsWhitespace(r[0])
    decreases |s|
  {
    if s != [] && IsJsWhitespace(s[0]) then
      var r := TrimStart(s[1..]);
      assert s[..|s| - |r|] == [s[0]] + s[1..][..|s| - 1 - |r|];
      r
    else s
  }

  /** Drops trailing white space: what is left is a prefix that ends with a non-blank character. */
  function TrimEnd(s: string): (r: string)
    ensures |r| <= |s| && r == s[..|r|]
    ensures IsBlank(s[|r|..])
    ensures r == [] || !IsJsWhitespace(r[|r| - 1])
    decreases |s|
  {
    if s != [] && IsJsWhitespace(s[|s| - 1]) then
      var r := TrimEnd(s[..|s| - 1]);
      assert s[|r|..] == s[..|s| - 1][|r|..] + [s[|s| - 1]];
      r
    else s
  }

  /**
   * `String.prototype.trim`: a contiguous part of `s`, with white space
   * dropped from both ends, so neither end of a non-empty result is
   * white space.
   */
  function Trim(s: string): (r: string)
    ensures |r| <= |s|
    ensures r == [] || (!IsJsWhitespace(r[0]) && !IsJsWhitespace(r[|r| - 1]))
  {
    var t := TrimStart(s);
    var r := TrimEnd(t);
    assert r != [] ==> r[0] == t[0];
    r
  }

  /** What `trim` removes is white space: `s` is a blank prefix, then `Trim(s)`, then a blank suffix. */
  lemma TrimDropsOnlyWhitespace(s: string)
    ensures exists i | 0 <= i <= |s| - |Trim(s)| ::
              s[i..i + |Trim(s)|] == Trim(s) && IsBlank(s[..i]) && IsBlank(s[i + |Trim(s)|..])
  {
    var t := TrimStart(s);
    var r := TrimEnd(t);
    var i := |s| - |t|;
    assert t == s[i..] && r == t[..|r|];
    assert s[i..i + |r|] == t[..|r|];
    assert s[i + |r|..] == t[|r|..];
  }

  /** `s.trim()` is empty exactly when every character of `s` is white space. */
  lemma TrimEmptyIffBlank(s: string)
    ensures Trim(s) == [] <==> IsBlank(s)
  {
    var t := TrimStart(s);
    if Trim(s) == [] {
      assert IsBlank(t[0..]);
      assert t == [];
      assert s[..|s|] == s;
    }
  }

  predicate StartsWith(s: string, prefix: string) {
    |prefix| <= |s| && s[..|prefix|] == prefix
  }

  /** `prefix` followed by at least one character a regular-expression `.` matches. */
  predicate PrefixThenChar(s: string, prefix: string) {
    StartsWith(s, prefix) && |s| > |prefix| && !IsLineTerminator(s[|prefix|])
  }

  /** What `/^https?:\/\/.+/` or `/^www\..+/` accepts. */
  predicate IsValidLink(link: string) {
    PrefixThenChar(link, "http://") || PrefixThenChar(link, "https://") || PrefixThenChar(link, "www.")
  }

  /**
   * What the link patterns accept and reject: an empty link, a bare
   * prefix and a prefix followed by a line break all fail; any other
   * character after a prefix passes.
   */
  lemma LinkPatterns(link: string, rest: string)
    ensures |link| <= 4 ==> !IsValidLink(link)
    ensures IsValidLink(link) ==> link[..4] == "http" || link[..4] == "www."
    ensures rest != [] ==>
              (IsValidLink("http://" + rest) <==> !IsLineTerminator(rest[0])) &&
              (IsValidLink("https://" + rest) <==> !IsLineTerminator(rest[0])) &&
              (IsValidLink("www." + rest) <==> !IsLineTerminator(rest[0]))
  {
    if IsValidLink(link) {
      if PrefixThenChar(link, "http://") {
        assert link[..4] == link[..7][..4];
      } else if PrefixThenChar(link, "https://") {
        assert link[..4] == link[..8][..4];
      }
    }
    if rest != [] {
      var h, hs, w := "http://" + rest, "https://" + rest, "www." + rest;
      assert h[..7] == "http://" && h[7] == rest[0];
      assert hs[..8] == "https://" && hs[8] == rest[0];
      assert w[..4] == "www." && w[4] == rest[0];
      assert !StartsWith(hs, "http://") by { assert hs[..7][4] != "http://"[4]; }
      assert !StartsWith(h, "https://") by {
        if |h| >= 8 { assert h[..8][4] != "https://"[4]; }
      }
      assert !StartsWith(h, "www.") by { assert h[..4][0] != "www."[0]; }
      assert !StartsWith(hs, "www.") by { assert hs[..4][0] != "www."[0]; }
      assert !StartsWith(w, "http://") by {
        if |w| >= 7 { assert w[..7][0] != "http://"[0]; }
      }
      assert !StartsWith(w, "https://") by {
        if |w| >= 8 { assert w[..8][0] != "https://"[0]; }
      }
    }
  }

  /**
   * Not `timer < 0 || !Number.isInteger(timer)`: a `NonInteger` fails
   * `Number.isInteger`, and an integer passes exactly when it is not
   * below 0.
   */
  predicate IsNonNegativeInteger(timer: Num) {
    timer.Int? && timer.value >= 0
  }

  /**
   * The decision `validateForm` takes: the three checks in order, the
   * first failure, or `None` when all pass.  The description check is
   * stated with `IsBlank`; the method uses `Trim` as the component does,
   * and `TrimEmptyIffBlank` connects the two.
   */
  function Check(d: BannerData): (r: Option<FormError>)
    ensures r == None <==> !IsBlank(d.description) && IsValidLink(d.link) && IsNonNegativeInteger(d.timer)
    ensures IsBlank(d.description) ==> r == Some(DescriptionRequired)
    ensures !IsBlank(d.description) && !IsValidLink(d.link) ==> r == Some(LinkInvalid)
    ensures !IsBlank(d.description) && IsValidLink(d.link) && !IsNonNegativeInteger(d.timer) ==>
              r == Some(TimerInvalid)
  {
    if IsBlank(d.description) then Some(DescriptionRequired)
    else if !IsValidLink(d.link) then Some(LinkInvalid)
    else if !IsNonNegativeInteger(d.timer) then Some(TimerInvalid)
    else None
  }

  /** The `name` attributes of the form's inputs. */
  datatype Field = Description | Link | Timer | IsVisible

  datatype InputType = Text | Number | Checkbox

  /** What `handleChange` reads from `e.target`. */
  datatype ChangeEvent = ChangeEvent(name: Field, kind: InputType, value: string, checked: bool)

  /** A draft field's value, tagged with its JavaScript type. */
  datatype FieldValue = Str(s: string) | NumValue(n: Num) | Flag(b: bool)

  /** The inputs the form renders: two text inputs, a number input for the timer, a checkbox for visibility. */
  predicate Rendered(e: ChangeEvent) {
    match e.name
    case Description => e.kind == Text
    case Link => e.kind == Text
    case Timer => e.kind == Number
    case IsVisible => e.kind == Checkbox
  }

  function Get(d: BannerData, f: Field): FieldValue {
    match f
    case Description => Str(d.description)
    case Link => Str(d.link)
    case Timer => NumValue(d.timer)
    case IsVisible => Flag(d.isVisible)
  }

  /**
   * The value `handleChange` stores: `checked` for a checkbox,
   * `Number(value)` for a number input (`toNumber` stands for that
   * conversion), the raw string otherwise.
   */
  function Stored(e: ChangeEvent, toNumber: string -> Num): FieldValue {
    match e.kind
    case Checkbox => Flag(e.checked)
    case Number => NumValue(toNumber(e.value))
    case Text => Str(e.value)
  }

  /** `{...prev, [name]: value}`: the named field takes the stored value, every other field is kept. */
  function ApplyChange(d: BannerData, e: ChangeEvent, toNumber: string -> Num): (r: BannerData)
    requires Rendered(e)
    ensures Get(r, e.name) == Stored(e, toNumber)
    ensures forall f :: f != e.name ==> Get(r, f) == Get(d, f)
    ensures r.id == d.id
  {
    match e.name
    case Description => d.(description := e.value)
    case Link => d.(link := e.value)
    case Timer => d.(timer := toNumber(e.value))
    case IsVisible => d.(isVisible := e.checked)
  }

  /** The form's state: the draft, the submitting flag and the inline error. */
  class AdminForm {
    var draft: BannerData
    var isSubmitting: bool
    var error: Option<FormError>

    /** No stale error is shown while a submission is in flight. */
    ghost predicate Valid()
      reads this
    {
      isSubmitting ==> error == None
    }

    constructor ()
      ensures Valid()
      ensures draft == DefaultDraft && !isSubmitting && error == None
    {
      draft := DefaultDraft;
      isSubmitting := false;
      error := None;
    }

    /** The seeding effect: a non-null `bannerData` replaces the whole draft; `null` leaves it. */
    method SeedFrom(bannerData: Option<BannerData>)
      modifies this`draft
      ensures bannerData.Some? ==> draft == bannerData.value
      ensures bannerData.None? ==> draft == old(draft)
    {
      if bannerData.Some? {
        draft := bannerData.value;
      }
    }

    method HandleChange(e: ChangeEvent, toNumber: string -> Num)
      requires Rendered(e)
      modifies this`draft
      ensures draft == ApplyChange(old(draft), e, toNumber)
    {
      match e.name
      case Description => draft := draft.(description := e.value);
      case Link => draft := draft.(link := e.value);
      case Timer => draft := draft.(timer := toNumber(e.value));
      case IsVisible => draft := draft.(isVisible := e.checked);
    }

    /** `validateForm`: on failure shows the first failing check's message; on success leaves `error` alone. */
    method ValidateForm() returns (ok: bool)
      modifies this`error
      ensures ok <==> Check(draft) == None
      ensures !ok ==> error == Check(draft)
      ensures ok ==> error == old(error)
    {
      TrimEmptyIffBlank(draft.description);
      if Trim(draft.description) == [] {
        error := Some(DescriptionRequired);
        return false;
      }
      if !IsValidLink(draft.link) {
        error := Some(LinkInvalid);
        return false;
      }
      if !IsNonNegativeInteger(draft.timer) {
        error := Some(TimerInvalid);
        return false;
      }
      return true;
    }

    /**
     * `handleSubmit` up to the awaited call.  `request` is the argument
     * passed to `onUpdateBanner`, or `None` when validation blocked the
     * submission (then nothing but `error` changes).  The submit button
     * is disabled while a submission is in flight.
     */
    method BeginSubmit() returns (request: Option<BannerData>)
      requires Valid() && !isSubmitting
      modifies this`isSubmitting, this`error
      ensures Valid()
      ensures Check(draft).Some? ==> request == None && error == Check(draft) && !isSubmitting
      ensures Check(draft).None? ==> request == Some(draft) && isSubmitting && error == None
    {
      var ok := ValidateForm();
      if ok {
        isSubmitting := true;
        error := None;
        request := Some(draft);
      } else {
        request := None;
      }
    }

    /** `handleSubmit` after the awaited call settles: the catch and the finally. */
    method FinishSubmit(outcome: Settled)
      requires Valid() && isSubmitting
      modifies this`isSubmitting, this`error
      ensures Valid() && !isSubmitting
      ensures error == if outcome == Rejected then Some(UpdateFailed) else None
    {
      if outcome == Rejected {
        error := Some(UpdateFailed);
      }
      isSubmitting := false;
    }
  }

  /**
   * A submission with an empty description, a valid link and timer, is
   * blocked with the description message and calls nothing.
   */
  method BlankDescriptionIsBlocked() returns (request: Option<BannerData>, shown: string)
    ensures request == None
    ensures shown == "Description is required."
  {
    var form := new AdminForm();
    form.SeedFrom(Some(BannerData(None, "", "https://x.com", Int(10), true)));
    request := form.BeginSubmit();
    shown := form.error.value.Message();
  }
}
