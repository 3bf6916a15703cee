/** Vendor sign-up (src/pages/vendor/VendorRegister.tsx): the form schema, the CAC
    certificate check on file selection, the register button's guard, and the submit
    sequence sign-up, current user, certificate upload, `vendors` insert. */
module VendorRegister {
  import opened Common

  // ---------------------------------------------------------------------------
  // Schema

  datatype VendorForm = VendorForm(
    businessName: string,
    ownerFullName: string,
    email: string,
    phone: string,
    password: string,
    agreeToTerms: bool)

  datatype SchemaIssue =
    | BusinessNameTooShort
    | OwnerNameTooShort
    | InvalidEmail
    | PhoneTooShort
    | PasswordTooShort
    | TermsNotAccepted

  function IssueMessage(issue: SchemaIssue): string
  {
    match issue
    case BusinessNameTooShort => "Business name must be at least 2 characters"
    case OwnerNameTooShort => "Owner name must be Full name"
    case InvalidEmail => "Please enter a valid  new email address you have never used before on this website"
    case PhoneTooShort => "Please enter a valid phone number"
    case PasswordTooShort => "Password must be at least 8 characters"
    case TermsNotAccepted => "You must accept TalkToShop terms & conditions"
  }

  /** The rule each issue stands for holds. `emailOk` is the email-format check of the
      validation library. */
  predicate Satisfies(f: VendorForm, emailOk: bool, issue: SchemaIssue)
  {
    match issue
    case BusinessNameTooShort => |f.businessName| >= 2
    case OwnerNameTooShort => |f.ownerFullName| >= 2
    case InvalidEmail => emailOk
    case PhoneTooShort => |f.phone| >= 10
    case PasswordTooShort => |f.password| >= 8
    case TermsNotAccepted => f.agreeToTerms
  }

  function Check(f: VendorForm, emailOk: bool, issue: SchemaIssue): seq<SchemaIssue>
  {
    if Satisfies(f, emailOk, issue) then [] else [issue]
  }

  /** vendorSchema: the failed rules, in the order the schema declares them. */
  function Issues(f: VendorForm, emailOk: bool): seq<SchemaIssue>
  {
    Check(f, emailOk, BusinessNameTooShort) + Check(f, emailOk, OwnerNameTooShort)
      + Check(f, emailOk, InvalidEmail) + Check(f, emailOk, PhoneTooShort)
      + Check(f, emailOk, PasswordTooShort) + Check(f, emailOk, TermsNotAccepted)
  }

  /** A rule is reported exactly when it fails, so the form is valid exactly when the
      business and owner names have at least 2 characters, the email is well formed, the
      phone has at least 10 characters, the password at least 8, and the terms are
      accepted. */
  lemma IssuesAreFailedRules(f: VendorForm, emailOk: bool)
    ensures forall issue :: issue in Issues(f, emailOk) <==> !Satisfies(f, emailOk, issue)
    ensures Issues(f, emailOk) == [] <==>
      |f.businessName| >= 2 && |f.ownerFullName| >= 2 && emailOk && |f.phone| >= 10
      && |f.password| >= 8 && f.agreeToTerms
  {
    forall issue
      ensures issue in Issues(f, emailOk) <==> !Satisfies(f, emailOk, issue)
    {
      assert issue in Check(f, emailOk, issue) <==> !Satisfies(f, emailOk, issue);
    }
    if Issues(f, emailOk) == [] {
      assert Satisfies(f, emailOk, BusinessNameTooShort) && Satisfies(f, emailOk, OwnerNameTooShort);
      assert Satisfies(f, emailOk, InvalidEmail) && Satisfies(f, emailOk, PhoneTooShort);
      assert Satisfies(f, emailOk, PasswordTooShort) && Satisfies(f, emailOk, TermsNotAccepted);
    }
  }

  // ---------------------------------------------------------------------------
  // The certificate file

  /** A selected file: its name, MIME type and size in bytes. */
  datatype CacFile = CacFile(name: string, mimeType: string, size: int)

  const AcceptedTypes: seq<string> := ["application/pdf", "image/jpeg", "image/png"]
  const MaxCacSize := 5 * 1024 * 1024
  const TypeError := "Please upload a PDF, JPG, or PNG file"
  const SizeError := "File size must be less than 5MB"
  const MissingFileError := "Please upload your CAC certificate"

  /** The error a selected file is rejected with, the type being checked first; None when
      it is accepted. */
  function FileCheck(file: CacFile): Option<string>
  {
    if file.mimeType !in AcceptedTypes then Some(TypeError)
    else if file.size > MaxCacSize then Some(SizeError)
    else None
  }

  /** A file is accepted exactly when it is a PDF, JPEG or PNG of at most 5 MiB; a file
      of the wrong type reports the type error whatever its size. */
  lemma FileCheckCases(file: CacFile)
    ensures FileCheck(file).None? <==>
      (file.mimeType == "application/pdf" || file.mimeType == "image/jpeg" || file.mimeType == "image/png")
      && file.size <= 5 * 1024 * 1024
    ensures file.mimeType !in AcceptedTypes ==> FileCheck(file) == Some(TypeError)
    ensures file.mimeType in AcceptedTypes && file.size > MaxCacSize ==> FileCheck(file) == Some(SizeError)
  {
  }

  /** The size limit is inclusive: exactly 5 MiB passes, one byte more does not. */
  lemma SizeLimitInclusive(name: string)
    ensures FileCheck(CacFile(name, "application/pdf", 5242880)).None?
    ensures FileCheck(CacFile(name, "application/pdf", 5242881)) == Some(SizeError)
  {
  }

  /** The storage path `cac/<user id>.<extension>`. */
  function CacPath(userId: string, file: CacFile): string
  {
    "cac/" + userId + "." + AfterLastDot(file.name)
  }

  /** The path starts with "cac/" and the user id, and ends with the file name's text
      after its last '.', which contains no '.' itself. */
  lemma CacPathShape(userId: string, file: CacFile)
    ensures StartsWith(CacPath(userId, file), "cac/" + userId + ".")
    ensures var ext := AfterLastDot(file.name);
      CacPath(userId, file)[|CacPath(userId, file)| - |ext|..] == ext && '.' !in ext
  {
    var ext := AfterLastDot(file.name);
    AfterLastDotSpec(file.name);
    var path := CacPath(userId, file);
    assert path == ("cac/" + userId + ".") + ext;
    assert path[..|"cac/" + userId + "."|] == "cac/" + userId + ".";
    assert path[|path| - |ext|..] == ext;
  }

  /** isFormComplete && !isSubmitting: the register button's enabling condition. */
  predicate RegisterEnabled(isValid: bool, cacFile: Option<CacFile>, agreeToTerms: bool, isSubmitting: bool)
  {
    isValid && cacFile.Some? && agreeToTerms && !isSubmitting
  }

  /** With the schema's verdict as `isValid`, the button is enabled exactly when the
      form passes the schema, a certificate was accepted and nothing is being submitted;
      the separate terms check adds nothing, the schema already demands it. */
  lemma RegisterEnabledIff(f: VendorForm, emailOk: bool, cacFile: Option<CacFile>, isSubmitting: bool)
    ensures RegisterEnabled(Issues(f, emailOk) == [], cacFile, f.agreeToTerms, isSubmitting) <==>
      Issues(f, emailOk) == [] && cacFile.Some? && !isSubmitting
  {
    IssuesAreFailedRules(f, emailOk);
  }

  // ---------------------------------------------------------------------------
  // Submission

  /** The inserted `vendors` row. */
  datatype VendorRow = VendorRow(
    userId: string,
    businessName: string,
    ownerName: string,
    email: string,
    phone: string,
    cacUrl: string,
    status: string)

  const CertificateBucket := "vendor-documents"
  const LoginRoute := "/vendor/login"
  const NotAuthenticated := "User not authenticated yet"

  /** `alert(err.message || "Registration failed")`. */
  function AlertFor(message: string): string
  {
    if message != "" then message else "Registration failed"
  }

  class RegisterPage {
    var cacFile: Option<CacFile>
    var fileError: string
    var isSubmitting: bool
    var alerts: seq<string>
    var navigations: seq<string>

    constructor ()
      ensures cacFile == None && fileError == "" && !isSubmitting && alerts == [] && navigations == []
    {
      cacFile := None;
      fileError := "";
      isSubmitting := false;
      alerts := [];
      navigations := [];
    }

    /** handleFileChange: the error is cleared first; no file changes nothing more; a
        rejected file sets the error and keeps the earlier certificate; an accepted one
        replaces it. */
    method HandleFileChange(file: Option<CacFile>)
      modifies this`cacFile, this`fileError
      ensures file.None? ==> fileError == "" && cacFile == old(cacFile)
      ensures file.Some? && FileCheck(file.value).Some? ==>
        fileError == FileCheck(file.value).value && cacFile == old(cacFile)
      ensures file.Some? && FileCheck(file.value).None? ==> fileError == "" && cacFile == file
    {
      fileError := "";
      if file.Some? {
        var f := file.value;
        if f.mimeType !in AcceptedTypes {
          fileError := TypeError;
          return;
        }
        if f.size > MaxCacSize {
          fileError := SizeError;
          return;
        }
        cacFile := file;
      }
    }

    /** onSubmit, run with form data that passed the schema. Each backend step is a
        parameter: `signUpError`, `uploadError` and `insertError` are the error messages
        of those calls (None when they succeed) and `user` the id getUser returns. The
        first failure stops the sequence with an alert; the flag is down at the end. */
    method OnSubmit(data: VendorForm, signUpError: Option<string>, user: Option<string>,
                    uploadError: Option<string>, insertError: Option<string>)
      returns (requests: seq<Request>, sent: Option<VendorRow>)
      modifies this`fileError, this`isSubmitting, this`alerts, this`navigations
      ensures old(cacFile).None? ==>
        requests == [] && sent == None && fileError == MissingFileError
        && isSubmitting == old(isSubmitting) && alerts == old(alerts) && navigations == old(navigations)
      ensures old(cacFile).Some? ==> !isSubmitting && fileError == old(fileError)
      ensures old(cacFile).Some? && signUpError.Some? ==>
        requests == [SignUp(data.email)] && sent == None
        && alerts == old(alerts) + [AlertFor(signUpError.value)] && navigations == old(navigations)
      ensures old(cacFile).Some? && signUpError.None? && user.None? ==>
        requests == [SignUp(data.email), GetUser] && sent == None
        && alerts == old(alerts) + [NotAuthenticated] && navigations == old(navigations)
      ensures old(cacFile).Some? && signUpError.None? && user.Some? && uploadError.Some? ==>
        requests == [SignUp(data.email), GetUser, Upload(CertificateBucket, CacPath(user.value, old(cacFile).value))]
        && sent == None && alerts == old(alerts) + [AlertFor(uploadError.value)] && navigations == old(navigations)
      ensures old(cacFile).Some? && signUpError.None? && user.Some? && uploadError.None? ==>
        && requests == [SignUp(data.email), GetUser, Upload(CertificateBucket, CacPath(user.value, old(cacFile).value)),
                        Insert("vendors")]
        && sent == Some(VendorRow(user.value, data.businessName, data.ownerFullName, data.email, data.phone,
                                  CacPath(user.value, old(cacFile).value), "pending"))
        && (insertError.Some? ==> alerts == old(alerts) + [AlertFor(insertError.value)] && navigations == old(navigations))
        && (insertError.None? ==> alerts == old(alerts) && navigations == old(navigations) + [LoginRoute])
    {
      sent := None;
      if cacFile.None? {
        requests := [];
        fileError := MissingFileError;
        return;
      }
      var file := cacFile.value;
      isSubmitting := true;
      requests := [SignUp(data.email)];
      if signUpError.Some? {
        alerts := alerts + [AlertFor(signUpError.value)];
        isSubmitting := false;
        return;
      }
      requests := requests + [GetUser];
      if user.None? {
        alerts := alerts + [NotAuthenticated];
        isSubmitting := false;
        return;
      }
      var filePath := CacPath(user.value, file);
      requests := requests + [Upload(CertificateBucket, filePath)];
      if uploadError.Some? {
        alerts := alerts + [AlertFor(uploadError.value)];
        isSubmitting := false;
        return;
      }
      requests := requests + [Insert("vendors")];
      sent := Some(VendorRow(user.value, data.businessName, data.ownerFullName, data.email, data.phone,
                             filePath, "pending"));
      if insertError.Some? {
        alerts := alerts + [AlertFor(insertError.value)];
      } else {
        navigations := navigations + [LoginRoute];
      }
      isSubmitting := false;
    }
  }
}
