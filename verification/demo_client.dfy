/**
 * The demo page's client-side checks: which API base URL the page talks to,
 * the key-name check before a key is requested, the upload checks before a
 * removal request (key, file, type, size), the form that request carries, and
 * the drop zone's type check. Page rendering and `fetch` are not modelled.
 */
module DemoClient {
  import opened Wrappers
  import opened Text

  const LocalApi := "http://localhost:8000"
  const ProductionApi := "https://web-production-faaf.up.railway.app"
  const PlaceholderMarker := "your-api-name"

  const SupportedTypes := ["image/jpeg", "image/jpg", "image/png", "image/webp", "image/bmp", "image/tiff"]
  const SupportedExtensions := [".jpg", ".jpeg", ".png", ".webp", ".bmp", ".tiff", ".tif"]
  /** 5 MiB. */
  const MaxUploadBytes := 5 * 1024 * 1024

  const BlankKeyName := "Please enter a name for your API key"
  const MissingApiKeyMessage := "Please enter your API key"
  const NoFileMessage := "Please select an image file"
  const UnsupportedMessage := "\U{274C} Unsupported file format. Please upload a JPEG, PNG, WebP, BMP, or TIFF image."
  const TooLargeMessage := "\U{274C} File too large. Please upload an image smaller than 5MB."

  // ---------------------------------------------------------------- API base URL

  /** `getApiUrl`: the local server for a local page, the production server otherwise. */
  function GetApiUrl(hostname: string): (url: string)
    ensures url == LocalApi <==> hostname == "localhost" || hostname == "127.0.0.1"
    ensures url == ProductionApi <==> hostname != "localhost" && hostname != "127.0.0.1"
  {
    if hostname == "localhost" || hostname == "127.0.0.1" then LocalApi else ProductionApi
  }

  predicate OccursAt(s: string, sub: string, i: nat) {
    i + |sub| <= |s| && s[i..i + |sub|] == sub
  }

  /** `s.includes(sub)`. */
  predicate Contains(s: string, sub: string) {
    exists i: nat | i <= |s| :: OccursAt(s, sub, i)
  }

  /** A string lacking one of the characters of `sub` cannot contain `sub`. */
  lemma MissingCharNotContained(s: string, sub: string, k: nat)
    requires k < |sub| && sub[k] !in s
    ensures !Contains(s, sub)
  {
    forall i: nat | i + |sub| <= |s|
      ensures !OccursAt(s, sub, i)
    {
      assert s[i..i + |sub|][k] == s[i + k];
    }
  }

  // ---------------------------------------------------------------- key name

  datatype FormField = FormField(name: string, value: string)

  datatype KeyNameCheck = BlankName | NotConfigured | SubmitName(field: FormField)

  /** `generateApiKey`'s checks: a blank name first, then the placeholder URL; the name is sent untrimmed. */
  function CheckKeyName(keyName: string, apiUrl: string): (r: KeyNameCheck)
    ensures r == BlankName <==> IsBlank(keyName)
    ensures r == NotConfigured <==> !IsBlank(keyName) && Contains(apiUrl, PlaceholderMarker)
    ensures r.SubmitName? ==> r.field == FormField("key_name", keyName)
  {
    if IsBlank(keyName) then BlankName
    else if Contains(apiUrl, PlaceholderMarker) then NotConfigured
    else SubmitName(FormField("key_name", keyName))
  }

  /**
   * Neither base URL the page can pick contains the placeholder (neither has an
   * 'm'), so the "not configured" branch never runs: every non-blank name is sent.
   */
  lemma ConfigurationCheckUnreachable(keyName: string, hostname: string)
    ensures CheckKeyName(keyName, GetApiUrl(hostname)) != NotConfigured
  {
    assert PlaceholderMarker[11] == 'm';
    MissingCharNotContained(GetApiUrl(hostname), PlaceholderMarker, 11);
  }

  // ---------------------------------------------------------------- file type and size

  datatype FileInfo = FileInfo(name: string, mimeType: string, size: nat)

  /** `exts.some(ext => name.endsWith(ext))`. */
  function EndsWithAny(name: string, exts: seq<string>): (b: bool)
    ensures b <==> exists k :: 0 <= k < |exts| && EndsWith(name, exts[k])
  {
    if exts == [] then false
    else if EndsWith(name, exts[0]) then true
    else
      var rest := EndsWithAny(name, exts[1..]);
      assert forall k :: 1 <= k < |exts| ==> exts[k] == exts[1..][k - 1];
      rest
  }

  /** The type test of `removeBackground` and `handleDrop`: a listed MIME type, or a listed extension in any letter case. */
  function IsSupportedFile(f: FileInfo): (ok: bool)
    ensures ok <==> f.mimeType in SupportedTypes
                    || exists k :: 0 <= k < |SupportedExtensions| && EndsWith(Lower(f.name), SupportedExtensions[k])
  {
    f.mimeType in SupportedTypes || EndsWithAny(Lower(f.name), SupportedExtensions)
  }

  /** The extension is compared after lower-casing, and the browser's MIME type is not needed. */
  lemma UpperCaseExtensionAccepted()
    ensures IsSupportedFile(FileInfo("SCAN.TIF", "", 1))
  {
    assert Lower("SCAN.TIF") == "scan.tif";
    assert EndsWith(Lower("SCAN.TIF"), SupportedExtensions[6]);
  }

  /** The MIME type alone is trusted: any name passes with a listed type. */
  lemma ListedTypeAcceptsAnyName(name: string, size: nat)
    ensures IsSupportedFile(FileInfo(name, "image/png", size))
  {
    assert SupportedTypes[2] == "image/png";
  }

  /** The size test is strict: exactly 5 MiB is accepted, one byte more is not. */
  predicate TooLarge(f: FileInfo) {
    f.size > MaxUploadBytes
  }

  // ---------------------------------------------------------------- upload checks

  datatype UploadCheck = MissingApiKey | NoFile | UnsupportedFormat | FileTooLarge | Accepted(file: FileInfo)

  /**
   * The checks `removeBackground` runs, in order: a blank key, no file
   * chosen, an unsupported type, an oversized file. Only the first file counts.
   */
  function CheckUpload(apiKey: string, files: Option<seq<FileInfo>>): (r: UploadCheck)
    ensures r == MissingApiKey <==> IsBlank(apiKey)
    ensures r == NoFile <==> !IsBlank(apiKey) && (files.None? || files.value == [])
    ensures r == UnsupportedFormat <==>
      !IsBlank(apiKey) && files.Some? && files.value != [] && !IsSupportedFile(files.value[0])
    ensures r == FileTooLarge <==>
      !IsBlank(apiKey) && files.Some? && files.value != [] && IsSupportedFile(files.value[0])
      && TooLarge(files.value[0])
    ensures r.Accepted? <==>
      !IsBlank(apiKey) && files.Some? && files.value != [] && IsSupportedFile(files.value[0])
      && !TooLarge(files.value[0])
    ensures r.Accepted? ==> r.file == files.value[0]
  {
    if IsBlank(apiKey) then MissingApiKey
    else if files.None? || files.value == [] then NoFile
    else
      var file := files.value[0];
      if !IsSupportedFile(file) then UnsupportedFormat
      else if TooLarge(file) then FileTooLarge
      else Accepted(file)
  }

  lemma FiveMiBBoundary(name: string, apiKey: string)
    requires !IsBlank(apiKey)
    ensures CheckUpload(apiKey, Some([FileInfo(name, "image/png", 5 * 1024 * 1024)])).Accepted?
    ensures CheckUpload(apiKey, Some([FileInfo(name, "image/png", 5 * 1024 * 1024 + 1)])) == FileTooLarge
  {
    ListedTypeAcceptsAnyName(name, 5 * 1024 * 1024);
    ListedTypeAcceptsAnyName(name, 5 * 1024 * 1024 + 1);
  }

  /** The message each rejected upload shows; an accepted one has none. */
  function UploadMessage(r: UploadCheck): (m: Option<string>)
    ensures m.None? <==> r.Accepted?
  {
    match r
    case MissingApiKey => Some(MissingApiKeyMessage)
    case NoFile => Some(NoFileMessage)
    case UnsupportedFormat => Some(UnsupportedMessage)
    case FileTooLarge => Some(TooLargeMessage)
    case Accepted(_) => None
  }

  // ---------------------------------------------------------------- the request form

  datatype MattingInputs = MattingInputs(
    enabled: bool,
    foregroundThreshold: string,
    backgroundThreshold: string,
    erodeSize: string,
    baseSize: string)

  datatype UploadForm = UploadForm(file: FileInfo, fields: seq<FormField>)

  /** How `FormData.append` writes a boolean. */
  function BoolText(b: bool): string {
    if b then "true" else "false"
  }

  /** The fields that carry the alpha-matting thresholds. */
  predicate IsThresholdField(f: FormField) {
    StartsWith(f.name, "alpha_matting_")
  }

  /**
   * The `FormData` of a removal request, appended field by field: the file,
   * the key, the matting switch, and the four thresholds only when matting is on.
   */
  method BuildUploadForm(file: FileInfo, apiKey: string, matting: MattingInputs) returns (form: UploadForm)
    ensures form.file == file
    ensures |form.fields| >= 2
    ensures form.fields[0] == FormField("api_key", apiKey)
    ensures form.fields[1] == FormField("alpha_matting", BoolText(matting.enabled))
    ensures matting.enabled ==> form.fields[2..] == [
      FormField("alpha_matting_foreground_threshold", matting.foregroundThreshold),
      FormField("alpha_matting_background_threshold", matting.backgroundThreshold),
      FormField("alpha_matting_erode_structure_size", matting.erodeSize),
      FormField("alpha_matting_base_size", matting.baseSize)]
    ensures !matting.enabled ==> |form.fields| == 2
    ensures (exists i :: 0 <= i < |form.fields| && IsThresholdField(form.fields[i])) <==> matting.enabled
  {
    form := UploadForm(file, []);
    form := form.(fields := form.fields + [FormField("api_key", apiKey)]);
    form := form.(fields := form.fields + [FormField("alpha_matting", BoolText(matting.enabled))]);
    assert !IsThresholdField(form.fields[0]) && !IsThresholdField(form.fields[1]);
    if matting.enabled {
      form := form.(fields := form.fields + [FormField("alpha_matting_foreground_threshold", matting.foregroundThreshold)]);
      assert IsThresholdField(form.fields[2]);
      form := form.(fields := form.fields + [FormField("alpha_matting_background_threshold", matting.backgroundThreshold)]);
      form := form.(fields := form.fields + [FormField("alpha_matting_erode_structure_size", matting.erodeSize)]);
      form := form.(fields := form.fields + [FormField("alpha_matting_base_size", matting.baseSize)]);
      assert IsThresholdField(form.fields[2]);
    }
  }

  /** `removeBackground` up to the request: the message of the first failed check, or the form to send. */
  method RemoveBackground(apiKey: string, files: Option<seq<FileInfo>>, matting: MattingInputs)
    returns (r: Result<UploadForm, string>)
    ensures r.Err? <==> !CheckUpload(apiKey, files).Accepted?
    ensures r.Err? ==> Some(r.error) == UploadMessage(CheckUpload(apiKey, files))
    ensures r.Ok? ==> r.value.file == files.value[0] && |r.value.fields| >= 2 && r.value.fields[0] == FormField("api_key", apiKey)
  {
    var check := CheckUpload(apiKey, files);
    if !check.Accepted? {
      return Err(UploadMessage(check).value);
    }
    var form := BuildUploadForm(check.file, apiKey, matting);
    r := Ok(form);
  }

  // ---------------------------------------------------------------- drop zone

  datatype DropOutcome = NothingDropped | DropRejected | DropAccepted

  /** The page's file input. */
  class FileInput {
    var files: seq<FileInfo>

    constructor ()
      ensures files == []
    {
      files := [];
    }

    /**
     * `handleDrop`: the dropped list replaces the input's files only when its
     * first file passes the type test; the size is checked later, on submit.
     */
    method HandleDrop(dropped: seq<FileInfo>) returns (outcome: DropOutcome)
      modifies this
      ensures dropped == [] ==> outcome == NothingDropped
      ensures dropped != [] ==> (outcome == DropAccepted <==> IsSupportedFile(dropped[0]))
      ensures files == (if outcome == DropAccepted then dropped else old(files))
    {
      if |dropped| == 0 {
        return NothingDropped;
      }
      if !IsSupportedFile(dropped[0]) {
        return DropRejected;
      }
      files := dropped;
      outcome := DropAccepted;
    }
  }
}
