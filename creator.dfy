/** The manual letterhead form of src/components/LetterheadCreator.tsx: field
    edits, the logo picker, the submit handler and the form's validity. */
module LetterheadCreator {
  import opened Wrappers
  import opened AppTypes
  import opened Text
  import opened Storage
  import App
  import DocumentPreview

  /** The six text inputs of the form. */
  datatype Form = Form(name: string, companyName: string, address: string,
                       phone: string, email: string, website: string)

  const EmptyForm := Form("", "", "", "", "", "")

  datatype FormField = NameField | CompanyNameField | AddressField | PhoneField | EmailField | WebsiteField

  function FormValue(f: Form, field: FormField): string {
    match field
    case NameField => f.name
    case CompanyNameField => f.companyName
    case AddressField => f.address
    case PhoneField => f.phone
    case EmailField => f.email
    case WebsiteField => f.website
  }

  /** `handleInputChange`: `{...prev, [field]: value}`. */
  function WithField(f: Form, field: FormField, value: string): (r: Form)
    ensures FormValue(r, field) == value
    ensures forall g :: g != field ==> FormValue(r, g) == FormValue(f, g)
  {
    match field
    case NameField => f.(name := value)
    case CompanyNameField => f.(companyName := value)
    case AddressField => f.(address := value)
    case PhoneField => f.(phone := value)
    case EmailField => f.(email := value)
    case WebsiteField => f.(website := value)
  }

  /** A form is determined by its six values. */
  lemma FormExtensional(f: Form, g: Form)
    requires forall field :: FormValue(f, field) == FormValue(g, field)
    ensures f == g
  {
    assert FormValue(f, NameField) == FormValue(g, NameField);
    assert FormValue(f, CompanyNameField) == FormValue(g, CompanyNameField);
    assert FormValue(f, AddressField) == FormValue(g, AddressField);
    assert FormValue(f, PhoneField) == FormValue(g, PhoneField);
    assert FormValue(f, EmailField) == FormValue(g, EmailField);
    assert FormValue(f, WebsiteField) == FormValue(g, WebsiteField);
  }

  /** Editing one field twice keeps only the second value; editing two
      different fields commutes. */
  lemma WithFieldLaws(f: Form, a: FormField, b: FormField, u: string, v: string)
    ensures WithField(WithField(f, a, u), a, v) == WithField(f, a, v)
    ensures a != b ==> WithField(WithField(f, a, u), b, v) == WithField(WithField(f, b, v), a, u)
  {
    FormExtensional(WithField(WithField(f, a, u), a, v), WithField(f, a, v));
    if a != b {
      FormExtensional(WithField(WithField(f, a, u), b, v), WithField(WithField(f, b, v), a, u));
    }
  }

  /** `isFormValid`, which enables the submit button. */
  predicate IsFormValid(f: Form) {
    Trim(f.companyName) != ""
  }

  /** The condition `handleSubmit` itself tests: an untrimmed, non-empty
      company name. */
  predicate SubmitGuard(f: Form) {
    f.companyName != ""
  }

  /** The button's test is the stricter one: a valid form always passes the
      handler's guard, and a company name of blanks passes the guard while
      the form is invalid. */
  lemma ValidFormPassesGuard(f: Form)
    ensures IsFormValid(f) ==> SubmitGuard(f)
    ensures IsFormValid(f) <==> !AllWhitespace(f.companyName)
    ensures SubmitGuard(EmptyForm.(companyName := " ")) && !IsFormValid(EmptyForm.(companyName := " "))
  {
    TrimEmptyIff(f.companyName);
    TrimEmptyIff(" ");
  }

  /** Whether `handleSubmit` converts the logo file again: a file is chosen
      and the preview is not already a `data:` URL (an absent preview counts
      as not one). */
  predicate NeedsReconversion(hasLogoFile: bool, logoPreview: Option<string>) {
    hasLogoFile && !(logoPreview.Some? && StartsWith(logoPreview.value, "data:"))
  }

  /** The logo handed to the letterhead. `reconverted` is the result of the
      second conversion, `None` when it throws and the preview is kept. */
  function SubmittedLogo(hasLogoFile: bool, logoPreview: Option<string>, reconverted: Option<string>): (r: Option<string>)
    ensures !NeedsReconversion(hasLogoFile, logoPreview) ==> r == logoPreview
    ensures NeedsReconversion(hasLogoFile, logoPreview) && reconverted.Some? ==> r == reconverted
    ensures NeedsReconversion(hasLogoFile, logoPreview) && reconverted.None? ==> r == logoPreview
  {
    if NeedsReconversion(hasLogoFile, logoPreview) && reconverted.Some? then reconverted else logoPreview
  }

  /** The letterhead `handleSubmit` builds, with `id` from `Date.now()`. */
  function ManualLetterhead(id: string, f: Form, logo: Option<string>): (l: Letterhead)
    ensures l.id == id && l.kind == Manual
    ensures f.name != "" ==> l.name == f.name
    ensures f.name == "" ==> l.name == f.companyName
    ensures l.companyName == Some(f.companyName) && l.address == Some(f.address)
    ensures l.phone == Some(f.phone) && l.email == Some(f.email) && l.website == Some(f.website)
    ensures l.logoUrl == l.logoBase64
    ensures l.logoBase64.None? <==> !Truthy(logo)
    ensures l.logoBase64.Some? ==> l.logoBase64 == logo
    ensures l.imageUrl.None? && l.pdfUrl.None? && l.base64Data.None? && l.fileType.None?
  {
    var logoValue := NonEmptyOrNone(logo);
    Letterhead(id, if f.name != "" then f.name else f.companyName, Manual,
               None, None, None, None,
               Some(f.companyName), Some(f.address), Some(f.phone), Some(f.email), Some(f.website),
               logoValue, logoValue)
  }

  /** A created letterhead is shown as the organisation header: its company
      name, and exactly the non-empty contact lines and logo of the form, each
      showing the text that was typed or picked; the
      side panel names it by its company name. */
  lemma ManualLetterheadRenders(id: string, f: Form, logo: Option<string>)
    ensures var l := ManualLetterhead(id, f, logo);
      var v := DocumentPreview.RenderLetterhead(Some(l));
      && v.ManualHeader?
      && v.companyName == f.companyName
      && v.address == (if f.address != "" then Some(f.address) else None)
      && v.phone == (if f.phone != "" then Some(f.phone) else None)
      && v.email == (if f.email != "" then Some(f.email) else None)
      && v.website == (if f.website != "" then Some(f.website) else None)
      && v.logo == (if Truthy(logo) then logo else None)
      && DocumentPreview.SidebarLabel(l) == f.companyName
  {
  }

  /** The logo picker accepts a file only when its type starts with `image/`. */
  predicate IsImageFile(file: FileInfo) {
    StartsWith(file.mimeType, "image/")
  }

  datatype CreatorState = CreatorState(formData: Form, logoFile: Option<FileInfo>, logoPreview: Option<string>)

  class Creator {
    var formData: Form
    var logoFile: Option<FileInfo>
    var logoPreview: Option<string>

    function State(): CreatorState
      reads this
    {
      CreatorState(formData, logoFile, logoPreview)
    }

    constructor ()
      ensures State() == CreatorState(EmptyForm, None, None)
    {
      formData := EmptyForm;
      logoFile := None;
      logoPreview := None;
    }

    method HandleInputChange(field: FormField, value: string)
      modifies this
      ensures State() == old(State()).(formData := WithField(old(formData), field, value))
    {
      formData := WithField(formData, field, value);
    }

    /** `handleLogoUpload`. `file` is the first chosen file, `encoded` the
        data URL of the conversion (`None` when it throws) and `objectUrl` the
        fallback blob URL. */
    method HandleLogoUpload(file: Option<FileInfo>, encoded: Option<string>, objectUrl: string)
      modifies this
      ensures file.Some? && IsImageFile(file.value) ==>
        State() == old(State()).(logoFile := file, logoPreview := Some(encoded.GetOr(objectUrl)))
      ensures !(file.Some? && IsImageFile(file.value)) ==> State() == old(State())
    {
      if file.Some? && IsImageFile(file.value) {
        logoFile := file;
        logoPreview := Some(encoded.GetOr(objectUrl));
      }
    }

    method RemoveLogo()
      modifies this
      ensures State() == old(State()).(logoFile := None, logoPreview := None)
    {
      logoFile := None;
      logoPreview := None;
    }

    /** `handleSubmit`. When the guard passes, the letterhead is stored and
        selected in the wizard and the form is cleared; when storing throws
        (`ok` false) the rest of the handler does not run. */
    method HandleSubmit(app: App.Wizard, id: string, reconverted: Option<string>,
                        timestamp: string, random: string)
      returns (created: Option<Letterhead>, ok: bool)
      modifies this, app, app.store
      ensures !SubmitGuard(old(formData)) ==>
        && created.None? && !ok
        && State() == old(State()) && app.State() == old(app.State())
        && app.store.userIdItem == old(app.store.userIdItem)
        && app.store.dataItems == old(app.store.dataItems)
      ensures SubmitGuard(old(formData)) ==>
        var l := ManualLetterhead(id, old(formData), SubmittedLogo(old(logoFile).Some?, old(logoPreview), reconverted));
        var uid := ResolveUserId(old(app.store.userIdItem), timestamp, random);
        var data := LoadUserData(uid, old(app.store.dataItems));
        && created == Some(l)
        && app.store.userIdItem == Some(uid)
        && ok == data.letterheads.Some?
        && (ok ==> var list := Upsert(data.letterheads.value, l, LetterheadId);
             && app.store.dataItems == old(app.store.dataItems)[uid := Some(data.(letterheads := Some(list)))]
             && app.State() == old(app.State()).(letterheads := list, selectedLetterhead := Some(l))
             && State() == CreatorState(EmptyForm, None, None))
        && (!ok ==> app.store.dataItems == old(app.store.dataItems)
                    && app.State() == old(app.State()) && State() == old(State()))
    {
      if !SubmitGuard(formData) {
        return None, false;
      }
      var logo := SubmittedLogo(logoFile.Some?, logoPreview, reconverted);
      var l := ManualLetterhead(id, formData, logo);
      created := Some(l);
      ok := app.HandleLetterheadCreated(l, timestamp, random);
      if !ok {
        return;
      }
      app.SelectLetterhead(Some(l));
      formData := EmptyForm;
      logoFile := None;
      logoPreview := None;
    }
  }
}
