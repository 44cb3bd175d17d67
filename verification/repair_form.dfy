/**
 * The repair form's logic: the validator, the storage upload with its error
 * classification and single retry, the construction of the stored record and
 * the submission pipeline (validate, upload the voice memo, upload the photo,
 * insert the row, invoke the confirmation function).  Storage, the database
 * and the function call are oracles: their answers are parameters, and each
 * operation returns the calls it made together with its outcome.
 */
module RepairForm {
  import opened Base
  import opened JsStrings
  import opened Types
  import opened EmailPattern
  import PhoneModels
  import ConfirmationEmail

  // ---------------------------------------------------------------------------
  // Form state and validation
  // ---------------------------------------------------------------------------

  /** The form's fields, as keys of the error map. */
  datatype FormField = FullNameField | EmailField | PhoneModelField | IssueDescriptionField | UrgencyField

  /** The form's field values (untrimmed, as typed). */
  datatype FormData = FormData(
    fullName: string,
    email: string,
    phoneModel: string,
    issueDescription: string,
    urgency: Urgency)

  /** The form as first rendered: every text field empty, urgency medium. */
  const InitialForm := FormData("", "", PhoneModels.Unselected, "", Medium)

  const FullNameRequired := "Full name is required"
  const EmailRequired := "Email is required"
  const EmailInvalid := "Please enter a valid email address"
  const PhoneModelRequired := "Please select your phone model"
  const IssueRequired := "Please describe the issue or record a voice message"

  /** The field-to-message map the validator builds on a submit attempt. */
  function ValidateForm(form: FormData, hasVoiceRecording: bool): (errors: map<FormField, string>)
    ensures FullNameField in errors <==> AllWhitespace(form.fullName)
    ensures FullNameField in errors ==> errors[FullNameField] == FullNameRequired
    ensures AllWhitespace(form.email) ==> EmailField in errors && errors[EmailField] == EmailRequired
    ensures !AllWhitespace(form.email) ==> (EmailField in errors <==> !RegexMatches(form.email))
    ensures !AllWhitespace(form.email) && EmailField in errors ==> errors[EmailField] == EmailInvalid
    ensures PhoneModelField in errors <==> form.phoneModel == PhoneModels.Unselected
    ensures PhoneModelField in errors ==> errors[PhoneModelField] == PhoneModelRequired
    ensures IssueDescriptionField in errors <==> AllWhitespace(form.issueDescription) && !hasVoiceRecording
    ensures IssueDescriptionField in errors ==> errors[IssueDescriptionField] == IssueRequired
    ensures UrgencyField !in errors
  {
    var afterName: map<FormField, string> :=
      if IsBlank(form.fullName) then map[FullNameField := FullNameRequired] else map[];
    var afterEmail :=
      if IsBlank(form.email) then afterName[EmailField := EmailRequired]
      else if !LooksLikeEmail(form.email) then afterName[EmailField := EmailInvalid]
      else afterName;
    var afterModel :=
      if form.phoneModel == "" then afterEmail[PhoneModelField := PhoneModelRequired] else afterEmail;
    if IsBlank(form.issueDescription) && !hasVoiceRecording then
      afterModel[IssueDescriptionField := IssueRequired]
    else afterModel
  }

  /** `Object.keys(errors).length === 0`. */
  predicate IsValid(form: FormData, hasVoiceRecording: bool) {
    ValidateForm(form, hasVoiceRecording) == map[]
  }

  /**
   * The name is not blank, the e-mail matches the loose pattern, a device is
   * chosen and the issue is described in text or by a voice memo.
   */
  ghost predicate Acceptable(form: FormData, hasVoiceRecording: bool) {
    && !AllWhitespace(form.fullName)
    && RegexMatches(form.email)
    && form.phoneModel != PhoneModels.Unselected
    && (!AllWhitespace(form.issueDescription) || hasVoiceRecording)
  }

  /** The validator accepts the form exactly when its fields are acceptable. */
  lemma ValidIff(form: FormData, hasVoiceRecording: bool)
    ensures IsValid(form, hasVoiceRecording) <==> Acceptable(form, hasVoiceRecording)
  {
    var errors := ValidateForm(form, hasVoiceRecording);
    if RegexMatches(form.email) {
      var a, p, q, e :| MatchesAt(form.email, a, p, q, e);
      assert !IsWhitespace(form.email[p]);
    }
    if errors == map[] {
      assert FullNameField !in errors;
    } else {
      var k :| k in errors;
      assert k == FullNameField || k == EmailField || k == PhoneModelField || k == IssueDescriptionField;
    }
  }

  // ---------------------------------------------------------------------------
  // Upload to object storage
  // ---------------------------------------------------------------------------

  const VoiceFolder := "voice-recordings"
  const PhotoFolder := "photos"
  const VoiceExtension := "webm"
  const VoiceMime := "audio/webm"
  const DefaultPhotoExtension := "jpg"

  /** The clock reading and random token that name one upload attempt's object. */
  datatype KeySeed = KeySeed(timestamp: nat, token: string)

  /** `${folder}/${timestamp}-${token}.${extension}`. */
  function ObjectPath(folder: string, seed: KeySeed, extension: string): string {
    folder + "/" + NatToString(seed.timestamp) + "-" + seed.token + "." + extension
  }

  /** The middle part of an object path: `${timestamp}-${token}`. */
  function ObjectName(seed: KeySeed): string {
    NatToString(seed.timestamp) + "-" + seed.token
  }

  /** Equal sequences with a common prefix and suffix have equal middles. */
  lemma StripFrame(a: string, m1: string, m2: string, b: string)
    requires a + m1 + b == a + m2 + b
    ensures m1 == m2
  {
    var whole := a + m1 + b;
    assert |m1| == |m2|;
    assert m1 == whole[|a|..|a| + |m1|];
    assert m2 == (a + m2 + b)[|a|..|a| + |m2|];
  }

  /** In `digits + "-" + token` the first '-' sits right after the digits. */
  lemma FirstDash(d: string, t: string)
    requires AllDigits(d)
    ensures (d + "-" + t)[|d|] == '-'
    ensures forall k :: 0 <= k < |d| ==> (d + "-" + t)[k] != '-'
  {
    assert forall k :: 0 <= k < |d| ==> (d + "-" + t)[k] == d[k];
  }

  /** An object name splits back into its timestamp and its token. */
  lemma ObjectNameInjective(s1: KeySeed, s2: KeySeed)
    requires ObjectName(s1) == ObjectName(s2)
    ensures s1 == s2
  {
    var d1, d2 := NatToString(s1.timestamp), NatToString(s2.timestamp);
    var n := ObjectName(s1);
    FirstDash(d1, s1.token);
    FirstDash(d2, s2.token);
    assert |d1| == |d2|;
    assert d1 == n[..|d1|] && d2 == ObjectName(s2)[..|d2|];
    assert s1.token == n[|d1| + 1..] && s2.token == ObjectName(s2)[|d2| + 1..];
    ParseNatToString(s1.timestamp);
    ParseNatToString(s2.timestamp);
  }

  /** Two seeds give one path only if they are the same seed: a fresh seed names a fresh object. */
  lemma ObjectPathInjective(folder: string, s1: KeySeed, s2: KeySeed, extension: string)
    requires ObjectPath(folder, s1, extension) == ObjectPath(folder, s2, extension)
    ensures s1 == s2
  {
    var a, b := folder + "/", "." + extension;
    assert ObjectPath(folder, s1, extension) == a + ObjectName(s1) + b;
    assert ObjectPath(folder, s2, extension) == a + ObjectName(s2) + b;
    StripFrame(a, ObjectName(s1), ObjectName(s2), b);
    ObjectNameInjective(s1, s2);
  }

  /** One call to the storage client's `upload`. */
  datatype UploadCall = UploadCall(path: string, data: seq<byte>, contentType: Option<string>)

  /**
   * The content type sent with an upload: voice recordings are re-wrapped as
   * `audio/webm` whatever the recorder declared; any other payload keeps its
   * own type, and an empty type sends none.
   */
  function UploadContentType(payload: Blob, folder: string): (ct: Option<string>)
    ensures folder == VoiceFolder ==> ct == Some(VoiceMime)
    ensures folder != VoiceFolder ==> (ct.Some? <==> payload.mime != "")
    ensures ct.Some? && folder != VoiceFolder ==> ct.value == payload.mime
  {
    var sent := if folder == VoiceFolder then Blob(payload.data, VoiceMime) else payload;
    if sent.mime != "" then Some(sent.mime)
    else if folder == VoiceFolder then Some(VoiceMime)
    else None
  }

  /** How an upload error message is understood. */
  datatype StorageFailure = BucketMissing | TooLarge | UnsupportedType | DuplicateKey | OtherFailure(message: string)

  /**
   * Classifies a storage error message by case-sensitive substrings, first
   * match wins: "Bucket not found", then "size", then "mime" or "type", then
   * "duplicate"; anything else is kept verbatim.
   */
  function ClassifyStorageError(message: string): (c: StorageFailure)
    ensures c == BucketMissing <==> Includes(message, "Bucket not found")
    ensures c == TooLarge <==> !Includes(message, "Bucket not found") && Includes(message, "size")
    ensures c == UnsupportedType <==>
              && !Includes(message, "Bucket not found") && !Includes(message, "size")
              && (Includes(message, "mime") || Includes(message, "type"))
    ensures c == DuplicateKey <==>
              && !Includes(message, "Bucket not found") && !Includes(message, "size")
              && !Includes(message, "mime") && !Includes(message, "type")
              && Includes(message, "duplicate")
    ensures c.OtherFailure? ==> c.message == message
  {
    if Includes(message, "Bucket not found") then BucketMissing
    else if Includes(message, "size") then TooLarge
    else if Includes(message, "mime") || Includes(message, "type") then UnsupportedType
    else if Includes(message, "duplicate") then DuplicateKey
    else OtherFailure(message)
  }

  /** A classification rule: any of the needles selects the failure kind. */
  datatype Rule = Rule(needles: seq<string>, kind: StorageFailure)

  /** The classification as a table, in the order the rules are tried. */
  const ErrorRules: seq<Rule> := [
    Rule(["Bucket not found"], BucketMissing),
    Rule(["size"], TooLarge),
    Rule(["mime", "type"], UnsupportedType),
    Rule(["duplicate"], DuplicateKey)
  ]

  /** Some needle occurs in the message. */
  predicate AnyIncluded(message: string, needles: seq<string>)
    decreases |needles|
  {
    |needles| > 0 && (Includes(message, needles[0]) || AnyIncluded(message, needles[1..]))
  }

  /** The kind of the first rule that matches, or the message itself when none does. */
  function FirstMatch(rules: seq<Rule>, message: string): StorageFailure
    decreases |rules|
  {
    if |rules| == 0 then OtherFailure(message)
    else if AnyIncluded(message, rules[0].needles) then rules[0].kind
    else FirstMatch(rules[1..], message)
  }

  /** The classifier is the first-match reading of the rule table. */
  lemma ClassifyIsFirstMatch(message: string)
    ensures ClassifyStorageError(message) == FirstMatch(ErrorRules, message)
  {
    var rules := ErrorRules;
    assert AnyIncluded(message, ["Bucket not found"]) == Includes(message, "Bucket not found");
    assert AnyIncluded(message, ["size"]) == Includes(message, "size");
    assert AnyIncluded(message, ["duplicate"]) == Includes(message, "duplicate");
    assert ["mime", "type"][1..] == ["type"];
    assert AnyIncluded(message, ["mime", "type"]) == (Includes(message, "mime") || Includes(message, "type"));
    assert rules[1..] == [rules[1], rules[2], rules[3]];
    assert rules[1..][1..] == [rules[2], rules[3]];
    assert rules[1..][1..][1..] == [rules[3]];
  }

  const UploadFailedPrefix := "Upload failed: "

  /**
   * The user-facing message of a failure that is not retried: a fixed
   * sentence per recognised class, otherwise storage's own message after a
   * fixed prefix.
   */
  function UploadErrorMessage(c: StorageFailure): (msg: string)
    requires !c.DuplicateKey?
    ensures StartsWith(msg, UploadFailedPrefix) <==> c.OtherFailure?
    ensures c.OtherFailure? ==> msg[|UploadFailedPrefix|..] == c.message
    ensures c.BucketMissing? ==> msg == "Storage not configured. Please contact support."
    ensures c.TooLarge? ==> msg == "File too large. Maximum size is 10MB."
    ensures c.UnsupportedType? ==> msg == "File type not supported."
  {
    match c
    case BucketMissing => NotPrefixed("Storage not configured." + " Please contact support.", 'S')
    case TooLarge => NotPrefixed("File too large. Maximum size is 10MB.", 'F')
    case UnsupportedType => NotPrefixed("File type not supported.", 'F')
    case OtherFailure(m) => UploadFailedPrefix + m
  }

  /** A fixed message opening with `first`, which is not how storage's own messages are shown. */
  function NotPrefixed(msg: string, first: char): (r: string)
    requires |msg| > 0 && msg[0] == first && first != 'U'
    ensures r == msg && !StartsWith(r, UploadFailedPrefix)
  {
    assert |msg| < |UploadFailedPrefix| || msg[..|UploadFailedPrefix|][0] != UploadFailedPrefix[0];
    msg
  }

  /** Different failures show different messages, so the message tells the user which one happened. */
  lemma UploadErrorMessageInjective(c: StorageFailure, d: StorageFailure)
    requires !c.DuplicateKey? && !d.DuplicateKey?
    ensures UploadErrorMessage(c) == UploadErrorMessage(d) <==> c == d
  {
    if UploadErrorMessage(c) == UploadErrorMessage(d) {
      if c.OtherFailure? && d.OtherFailure? {
        assert c.message == UploadErrorMessage(c)[|UploadFailedPrefix|..];
      } else if !c.OtherFailure? && !d.OtherFailure? {
        assert UploadErrorMessage(c)[0..6] == UploadErrorMessage(d)[0..6];
      }
    }
  }

  /** What storage answers to one upload call. */
  datatype StorageReply = Stored | StorageError(message: string)

  /** The oracle for one `uploadFile`: the key seeds of both attempts and storage's answers. */
  datatype UploadEnv = UploadEnv(firstSeed: KeySeed, retrySeed: KeySeed, firstReply: StorageReply, retryReply: StorageReply)

  /** The calls `uploadFile` made and the public URL or error message it produced. */
  datatype UploadRun = UploadRun(calls: seq<UploadCall>, result: Result<string, string>)

  /** A storage answer that asks for a retry under a new name. */
  predicate AsksRetry(reply: StorageReply) {
    reply.StorageError? && ClassifyStorageError(reply.message) == DuplicateKey
  }

  /**
   * `uploadFile(payload, folder, extension)`: one upload, and on a "duplicate"
   * error exactly one more under a fresh name; `publicUrl` is storage's
   * `getPublicUrl`.
   */
  function UploadFile(payload: Blob, folder: string, extension: string, env: UploadEnv,
                      publicUrl: string -> string): (u: UploadRun)
    ensures 1 <= |u.calls| <= 2
    ensures u.calls[0].path == ObjectPath(folder, env.firstSeed, extension)
    ensures forall i :: 0 <= i < |u.calls| ==>
              u.calls[i].data == payload.data && u.calls[i].contentType == UploadContentType(payload, folder)
    ensures |u.calls| == 2 <==> AsksRetry(env.firstReply)
    ensures |u.calls| == 2 ==> u.calls[1].path == ObjectPath(folder, env.retrySeed, extension)
    ensures u.result.Ok? <==> (if |u.calls| == 1 then env.firstReply.Stored? else env.retryReply.Stored?)
    ensures u.result.Ok? ==> u.result.value == publicUrl(u.calls[|u.calls| - 1].path)
    ensures env.firstReply.StorageError? && !AsksRetry(env.firstReply) ==>
              u.result == Err(UploadErrorMessage(ClassifyStorageError(env.firstReply.message)))
    ensures |u.calls| == 2 && env.retryReply.StorageError? ==>
              u.result == Err("Upload failed: " + env.retryReply.message)
  {
    var contentType := UploadContentType(payload, folder);
    var path := ObjectPath(folder, env.firstSeed, extension);
    var first := UploadCall(path, payload.data, contentType);
    match env.firstReply
    case Stored => UploadRun([first], Ok(publicUrl(path)))
    case StorageError(message) =>
      var kind := ClassifyStorageError(message);
      if kind != DuplicateKey then UploadRun([first], Err(UploadErrorMessage(kind)))
      else
        var retryPath := ObjectPath(folder, env.retrySeed, extension);
        var retry := UploadCall(retryPath, payload.data, contentType);
        match env.retryReply
        case Stored => UploadRun([first, retry], Ok(publicUrl(retryPath)))
        case StorageError(retryMessage) => UploadRun([first, retry], Err("Upload failed: " + retryMessage))
  }

  /** Storage rejects the upload: the first attempt fails, and so does the retry if one is made. */
  predicate UploadFails(env: UploadEnv) {
    env.firstReply.StorageError? && (AsksRetry(env.firstReply) ==> env.retryReply.StorageError?)
  }

  /** A present payload fails to upload exactly when storage rejects every attempt made. */
  lemma UploadFailsIff(payload: Blob, folder: string, extension: string, env: UploadEnv,
                       publicUrl: string -> string)
    ensures UploadFile(payload, folder, extension, env, publicUrl).result.Err? <==> UploadFails(env)
  {
  }

  /**
   * After a "duplicate" error with a fresh seed, a successful retry yields the
   * URL of the retried object, which differs from the first object's URL
   * whenever `publicUrl` tells paths apart.
   */
  lemma RetryUrlIsNotFirstUrl(payload: Blob, folder: string, extension: string, env: UploadEnv,
                              publicUrl: string -> string)
    requires AsksRetry(env.firstReply) && env.retryReply.Stored?
    requires env.retrySeed != env.firstSeed
    requires forall a, b :: publicUrl(a) == publicUrl(b) ==> a == b
    ensures UploadFile(payload, folder, extension, env, publicUrl).result.Ok?
    ensures UploadFile(payload, folder, extension, env, publicUrl).result.value
              != publicUrl(ObjectPath(folder, env.firstSeed, extension))
  {
    var u := UploadFile(payload, folder, extension, env, publicUrl);
    if u.result.value == publicUrl(ObjectPath(folder, env.firstSeed, extension)) {
      ObjectPathInjective(folder, env.retrySeed, env.firstSeed, extension);
    }
  }

  /**
   * The extension of an uploaded photo: the lower-cased text after the last
   * '.' of its name (all of a name without '.'), or "jpg" when that is empty.
   */
  function PhotoExtension(name: string): (ext: string)
    ensures ext != "" && '.' !in ext
    ensures forall k :: 0 <= k < |ext| ==> !IsAsciiUpper(ext[k])
    ensures |name| == 0 || name[|name| - 1] == '.' ==> ext == DefaultPhotoExtension
    ensures |name| > 0 && name[|name| - 1] != '.' ==>
              && |ext| <= |name|
              && ToLowerAscii(name[|name| - |ext|..]) == ext
              && (|ext| == |name| || name[|name| - |ext| - 1] == '.')
  {
    var segment := AfterLast(name, '.');
    LowerKeepsNoDot(segment);
    var last := ToLowerAscii(segment);
    if last == "" then DefaultPhotoExtension else last
  }

  /** Lower-casing neither creates nor removes a '.'. */
  lemma LowerKeepsNoDot(s: string)
    requires '.' !in s
    ensures '.' !in ToLowerAscii(s)
  {
    var r := ToLowerAscii(s);
    forall k | 0 <= k < |r|
      ensures r[k] != '.'
    {
      assert s[k] != '.';
    }
  }

  // ---------------------------------------------------------------------------
  // The stored record
  // ---------------------------------------------------------------------------

  /** JavaScript's `s || null` on a string. */
  function NullIfEmpty(s: string): (v: Option<string>)
    ensures v.None? <==> s == ""
    ensures v.Some? ==> v.value == s
  {
    if s == "" then None else Some(s)
  }

  /** The string an optional column shows, "" for null. */
  function OrEmpty(v: Option<string>): string {
    v.GetOr("")
  }

  /**
   * The row sent to the store: pending, with the form's urgency, its text
   * fields verbatim (untrimmed), and null in place of every empty optional
   * value.  Nothing is lost: every optional value reads back as given.
   */
  function BuildRecord(form: FormData, voiceUrl: string, photoUrl: string): (r: RepairRequest)
    ensures r.id.None? && r.createdAt.None?
    ensures r.status == Some(Pending) && r.urgency == form.urgency
    ensures r.fullName == form.fullName && r.email == form.email && r.phoneModel == form.phoneModel
    ensures OrEmpty(r.issueDescription) == form.issueDescription && r.issueDescription != Some("")
    ensures OrEmpty(r.voiceRecordingUrl) == voiceUrl && r.voiceRecordingUrl != Some("")
    ensures OrEmpty(r.photoUrl) == photoUrl && r.photoUrl != Some("")
  {
    RepairRequest(
      None,
      form.fullName,
      form.email,
      form.phoneModel,
      NullIfEmpty(form.issueDescription),
      NullIfEmpty(voiceUrl),
      NullIfEmpty(photoUrl),
      form.urgency,
      None,
      Some(Pending))
  }

  // ---------------------------------------------------------------------------
  // Submission
  // ---------------------------------------------------------------------------

  /**
   * What the database answers to `.insert([record]).select().single()`: the
   * row as stored, with the id and timestamp the store assigned, or an error.
   */
  datatype InsertReply = Inserted(row: RepairRequest) | InsertFailed(message: string)

  /**
   * The stored row is the record that was sent, plus the store's id and
   * timestamp.  The form never checks this; it is what a table without
   * triggers or column defaults for the sent columns answers.
   */
  predicate EchoesRecord(record: RepairRequest, row: RepairRequest) {
    row == record.(id := row.id, createdAt := row.createdAt)
  }

  /** What invoking the confirmation function produced; the form ignores it. */
  datatype FunctionReply = FunctionOk | FunctionError(message: string) | FunctionThrew(message: string)

  /** All external answers one submission receives. */
  datatype SubmitEnv = SubmitEnv(voice: UploadEnv, photo: UploadEnv, insert: InsertReply, confirmation: FunctionReply)

  const VoiceUploadPrefix := "Failed to upload voice recording: "
  const PhotoUploadPrefix := "Failed to upload photo: "
  const SaveFailed := "Failed to save request. Please try again."

  /** Uploads an optional payload; without one there is no call and the URL is "". */
  function UploadIfPresent(payload: Option<Blob>, folder: string, extension: string, env: UploadEnv,
                           publicUrl: string -> string): (u: UploadRun)
    ensures payload.None? ==> u == UploadRun([], Ok(""))
    ensures payload.Some? ==> u == UploadFile(payload.value, folder, extension, env, publicUrl)
  {
    if payload.None? then UploadRun([], Ok(""))
    else UploadFile(payload.value, folder, extension, env, publicUrl)
  }

  /** The selected photo as the payload handed to storage. */
  function PhotoPayload(photo: Option<File>): Option<Blob> {
    if photo.Some? then Some(photo.value.AsBlob()) else None
  }

  /** The extension the photo is uploaded with. */
  function PhotoUploadExtension(photo: Option<File>): string {
    if photo.Some? then PhotoExtension(photo.value.name) else DefaultPhotoExtension
  }

  /** The voice memo's upload, if there is a memo. */
  function VoiceUpload(voice: Option<Blob>, env: SubmitEnv, publicUrl: string -> string): UploadRun {
    UploadIfPresent(voice, VoiceFolder, VoiceExtension, env.voice, publicUrl)
  }

  /** The photo's upload, if there is a photo. */
  function PhotoUpload(photo: Option<File>, env: SubmitEnv, publicUrl: string -> string): UploadRun {
    UploadIfPresent(PhotoPayload(photo), PhotoFolder, PhotoUploadExtension(photo), env.photo, publicUrl)
  }

  /** Both uploads the submission needs succeed (an absent payload needs none). */
  predicate UploadsSucceed(voice: Option<Blob>, photo: Option<File>, env: SubmitEnv, publicUrl: string -> string) {
    VoiceUpload(voice, env, publicUrl).result.Ok? && PhotoUpload(photo, env, publicUrl).result.Ok?
  }

  /** Storage accepts every payload the submission carries, counting the retry. */
  predicate StorageAccepts(voice: Option<Blob>, photo: Option<File>, env: SubmitEnv) {
    (voice.Some? ==> !UploadFails(env.voice)) && (photo.Some? ==> !UploadFails(env.photo))
  }

  /** Both uploads succeed exactly when storage accepts each present payload. */
  lemma StorageAcceptsIff(voice: Option<Blob>, photo: Option<File>, env: SubmitEnv, publicUrl: string -> string)
    ensures StorageAccepts(voice, photo, env) <==> UploadsSucceed(voice, photo, env, publicUrl)
  {
    if voice.Some? {
      UploadFailsIff(voice.value, VoiceFolder, VoiceExtension, env.voice, publicUrl);
    }
    if photo.Some? {
      UploadFailsIff(PhotoPayload(photo).value, PhotoFolder, PhotoUploadExtension(photo), env.photo, publicUrl);
    }
  }

  /** The record built from the form and the URLs of successful uploads. */
  function SentRecord(form: FormData, voice: Option<Blob>, photo: Option<File>, env: SubmitEnv,
                      publicUrl: string -> string): RepairRequest
    requires StorageAccepts(voice, photo, env)
  {
    StorageAcceptsIff(voice, photo, env, publicUrl);
    BuildRecord(form, VoiceUpload(voice, env, publicUrl).result.value, PhotoUpload(photo, env, publicUrl).result.value)
  }

  /**
   * The body of the confirmation call: the form's fields, the stored row's id
   * and the tier's turnaround from the form's own table.
   */
  function ConfirmationBody(form: FormData, row: RepairRequest): (c: ConfirmationEmail.ConfirmationRequest)
    ensures c.email == Some(form.email) && c.name == Some(form.fullName) && c.phoneModel == Some(form.phoneModel)
    ensures c.requestId == row.id
    ensures c.urgency.Some? && ParseUrgency(c.urgency.value) == Some(form.urgency)
    ensures c.turnaround == Some(PhoneModels.UrgencyLevels[PhoneModels.TierIndex(form.urgency)].turnaround)
  {
    var level := PhoneModels.FindUrgencyLevel(form.urgency);
    ParseUrgencyValue(form.urgency);
    ConfirmationEmail.ConfirmationRequest(
      Some(form.email),
      Some(form.fullName),
      row.id,
      Some(form.phoneModel),
      Some(form.urgency.Value()),
      if level.Some? then Some(level.value.turnaround) else None)
  }

  /** The steps inside `try`: the storage calls, the insert, the confirmation call, and the row or an error. */
  datatype Pipeline = Pipeline(
    uploads: seq<UploadCall>,
    inserted: Option<RepairRequest>,
    confirmation: Option<ConfirmationEmail.ConfirmationRequest>,
    result: Result<RepairRequest, string>)

  /**
   * Voice memo first, then the photo, then the insert, then the confirmation
   * call; the first failure ends the run with its message.
   */
  function RunPipeline(form: FormData, voice: Option<Blob>, photo: Option<File>, env: SubmitEnv,
                       publicUrl: string -> string): (p: Pipeline)
    ensures var voiceRun := VoiceUpload(voice, env, publicUrl);
            p.uploads == voiceRun.calls + (if voiceRun.result.Ok? then PhotoUpload(photo, env, publicUrl).calls else [])
    ensures VoiceUpload(voice, env, publicUrl).result.Err? ==>
              p.result == Err(VoiceUploadPrefix + VoiceUpload(voice, env, publicUrl).result.error)
    ensures VoiceUpload(voice, env, publicUrl).result.Ok? && PhotoUpload(photo, env, publicUrl).result.Err? ==>
              p.result == Err(PhotoUploadPrefix + PhotoUpload(photo, env, publicUrl).result.error)
    ensures p.inserted.Some? <==> UploadsSucceed(voice, photo, env, publicUrl)
    ensures p.inserted.Some? ==> StorageAccepts(voice, photo, env)
    ensures p.inserted.Some? ==> p.inserted.value == SentRecord(form, voice, photo, env, publicUrl)
    ensures p.inserted.Some? && env.insert.InsertFailed? ==> p.result == Err(SaveFailed)
    ensures p.result.Ok? <==> p.inserted.Some? && env.insert.Inserted?
    ensures p.result.Ok? ==> p.result.value == env.insert.row
    ensures p.confirmation.Some? <==> p.result.Ok?
    ensures p.confirmation.Some? ==> p.confirmation.value == ConfirmationBody(form, p.result.value)
  {
    StorageAcceptsIff(voice, photo, env, publicUrl);
    var voiceRun := VoiceUpload(voice, env, publicUrl);
    if voiceRun.result.Err? then
      Pipeline(voiceRun.calls, None, None, Err(VoiceUploadPrefix + voiceRun.result.error))
    else
      var photoRun := PhotoUpload(photo, env, publicUrl);
      var uploads := voiceRun.calls + photoRun.calls;
      if photoRun.result.Err? then
        Pipeline(uploads, None, None, Err(PhotoUploadPrefix + photoRun.result.error))
      else
        var record := BuildRecord(form, voiceRun.result.value, photoRun.result.value);
        match env.insert
        case InsertFailed(_) => Pipeline(uploads, Some(record), None, Err(SaveFailed))
        case Inserted(row) => Pipeline(uploads, Some(record), Some(ConfirmationBody(form, row)), Ok(row))
  }

  /**
   * What one press of the submit button did, in the order it happens: the
   * errors shown, whether `isSubmitting` was raised, the storage calls, the
   * record sent to the database, the body sent to the confirmation function,
   * then either the alert or the row handed to `onSubmitSuccess`, and the
   * value `isSubmitting` is left with.
   */
  datatype SubmitRun = SubmitRun(
    shownErrors: map<FormField, string>,
    raisedSubmitting: bool,
    uploads: seq<UploadCall>,
    inserted: Option<RepairRequest>,
    confirmation: Option<ConfirmationEmail.ConfirmationRequest>,
    alert: Option<string>,
    delivered: Option<RepairRequest>,
    submittingAtEnd: bool)
  {
    /** The run reached storage, the database or the confirmation function. */
    predicate MadeNetworkCall() {
      |uploads| > 0 || inserted.Some? || confirmation.Some?
    }
  }

  /** `handleSubmit`: validate, then run the pipeline between raising and lowering `isSubmitting`. */
  function HandleSubmit(form: FormData, voice: Option<Blob>, photo: Option<File>, env: SubmitEnv,
                        publicUrl: string -> string): (run: SubmitRun)
    ensures run.shownErrors == ValidateForm(form, voice.Some?)
    ensures !Acceptable(form, voice.Some?) ==>
              !run.raisedSubmitting && !run.MadeNetworkCall() && run.alert.None? && run.delivered.None?
    ensures Acceptable(form, voice.Some?) ==> run.raisedSubmitting && (run.alert.Some? <==> run.delivered.None?)
    ensures !run.submittingAtEnd
    ensures Acceptable(form, voice.Some?) ==>
              var p := RunPipeline(form, voice, photo, env, publicUrl);
              && run.uploads == p.uploads && run.inserted == p.inserted && run.confirmation == p.confirmation
              && run.delivered == (if p.result.Ok? then Some(p.result.value) else None)
              && run.alert == (if p.result.Err? then Some(p.result.error) else None)
    ensures run.delivered.Some? ==>
              && run.inserted.Some? && run.confirmation.Some?
              && run.confirmation.value.requestId == run.delivered.value.id
  {
    ValidIff(form, voice.Some?);
    var errors := ValidateForm(form, voice.Some?);
    if errors != map[] then SubmitRun(errors, false, [], None, None, None, None, false)
    else
      var p := RunPipeline(form, voice, photo, env, publicUrl);
      match p.result
      case Ok(row) => SubmitRun(errors, true, p.uploads, p.inserted, p.confirmation, None, Some(row), false)
      case Err(message) => SubmitRun(errors, true, p.uploads, p.inserted, p.confirmation, Some(message), None, false)
  }

  /** An insert error is reported with the fixed message; no confirmation and no success follow. */
  lemma InsertFailureReported(form: FormData, voice: Option<Blob>, photo: Option<File>, env: SubmitEnv,
                              publicUrl: string -> string)
    requires Acceptable(form, voice.Some?) && env.insert.InsertFailed?
    requires StorageAccepts(voice, photo, env)
    ensures HandleSubmit(form, voice, photo, env, publicUrl).alert == Some(SaveFailed)
    ensures HandleSubmit(form, voice, photo, env, publicUrl).inserted == Some(SentRecord(form, voice, photo, env, publicUrl))
    ensures HandleSubmit(form, voice, photo, env, publicUrl).confirmation.None?
    ensures HandleSubmit(form, voice, photo, env, publicUrl).delivered.None?
  {
    StorageAcceptsIff(voice, photo, env, publicUrl);
    var p := RunPipeline(form, voice, photo, env, publicUrl);
    assert p.result == Err(SaveFailed) && p.inserted == Some(SentRecord(form, voice, photo, env, publicUrl));
    assert p.confirmation.None?;
  }

  /**
   * Whatever the confirmation call answers, the submission does the same: a
   * corollary of `PipelineIgnoresConfirmation`, stated for the whole handler.
   */
  lemma ConfirmationReplyIgnored(form: FormData, voice: Option<Blob>, photo: Option<File>, env: SubmitEnv,
                                 reply: FunctionReply, publicUrl: string -> string)
    ensures HandleSubmit(form, voice, photo, env.(confirmation := reply), publicUrl)
         == HandleSubmit(form, voice, photo, env, publicUrl)
  {
    PipelineIgnoresConfirmation(form, voice, photo, env, env.(confirmation := reply), publicUrl);
  }

  /** The pipeline reads the storage and database answers only. */
  lemma PipelineIgnoresConfirmation(form: FormData, voice: Option<Blob>, photo: Option<File>,
                                    env: SubmitEnv, other: SubmitEnv, publicUrl: string -> string)
    requires other.voice == env.voice && other.photo == env.photo && other.insert == env.insert
    ensures RunPipeline(form, voice, photo, other, publicUrl) == RunPipeline(form, voice, photo, env, publicUrl)
  {
    assert VoiceUpload(voice, other, publicUrl) == VoiceUpload(voice, env, publicUrl);
    assert PhotoUpload(photo, other, publicUrl) == PhotoUpload(photo, env, publicUrl);
  }

  /**
   * After a successful insert the database received the record built from
   * the form and the uploaded URLs, and the row it answered with is handed to
   * `onSubmitSuccess` and its id to the confirmation function.
   */
  lemma SuccessDeliversStoredRow(form: FormData, voice: Option<Blob>, photo: Option<File>, env: SubmitEnv,
                                 publicUrl: string -> string)
    requires Acceptable(form, voice.Some?) && env.insert.Inserted?
    requires StorageAccepts(voice, photo, env)
    ensures HandleSubmit(form, voice, photo, env, publicUrl).inserted == Some(SentRecord(form, voice, photo, env, publicUrl))
    ensures HandleSubmit(form, voice, photo, env, publicUrl).delivered == Some(env.insert.row)
    ensures HandleSubmit(form, voice, photo, env, publicUrl).confirmation == Some(ConfirmationBody(form, env.insert.row))
    ensures HandleSubmit(form, voice, photo, env, publicUrl).alert.None?
  {
    StorageAcceptsIff(voice, photo, env, publicUrl);
    var p := RunPipeline(form, voice, photo, env, publicUrl);
    assert p.inserted == Some(SentRecord(form, voice, photo, env, publicUrl)) && p.result == Ok(env.insert.row);
  }

  /**
   * When the store echoes a record built from the form, the row handed to
   * `onSubmitSuccess` is the form's text verbatim, pending, with that record's
   * URLs or null.  The text columns do not depend on the URLs, so the premise
   * may name any URLs; the record actually sent is the one with the uploaded
   * URLs (`SentRecord`).
   */
  lemma DeliveredRowEchoesForm(form: FormData, voice: Option<Blob>, photo: Option<File>, env: SubmitEnv,
                               publicUrl: string -> string, voiceUrl: string, photoUrl: string)
    requires Acceptable(form, voice.Some?) && env.insert.Inserted?
    requires StorageAccepts(voice, photo, env)
    requires EchoesRecord(BuildRecord(form, voiceUrl, photoUrl), env.insert.row)
    ensures HandleSubmit(form, voice, photo, env, publicUrl).delivered.Some?
    ensures var row := HandleSubmit(form, voice, photo, env, publicUrl).delivered.value;
            && row.fullName == form.fullName && row.email == form.email && row.phoneModel == form.phoneModel
            && row.urgency == form.urgency && row.status == Some(Pending)
            && row.issueDescription == NullIfEmpty(form.issueDescription)
            && row.voiceRecordingUrl == NullIfEmpty(voiceUrl) && row.photoUrl == NullIfEmpty(photoUrl)
  {
    StorageAcceptsIff(voice, photo, env, publicUrl);
    SuccessDeliversStoredRow(form, voice, photo, env, publicUrl);
  }

  /** A voice upload failure aborts before the photo upload and the insert, with the prefixed message. */
  lemma VoiceUploadFailureReported(form: FormData, voice: Option<Blob>, photo: Option<File>, env: SubmitEnv,
                                   publicUrl: string -> string)
    requires Acceptable(form, voice.Some?)
    requires voice.Some? && UploadFails(env.voice)
    ensures VoiceUpload(voice, env, publicUrl).result.Err?
    ensures HandleSubmit(form, voice, photo, env, publicUrl).alert ==
              Some(VoiceUploadPrefix + VoiceUpload(voice, env, publicUrl).result.error)
    ensures HandleSubmit(form, voice, photo, env, publicUrl).uploads == VoiceUpload(voice, env, publicUrl).calls
    ensures HandleSubmit(form, voice, photo, env, publicUrl).inserted.None?
  {
  }

  /** A photo upload failure aborts before the insert, with the prefixed message. */
  lemma PhotoUploadFailureReported(form: FormData, voice: Option<Blob>, photo: Option<File>, env: SubmitEnv,
                                   publicUrl: string -> string)
    requires Acceptable(form, voice.Some?)
    requires VoiceUpload(voice, env, publicUrl).result.Ok?
    requires photo.Some? && UploadFails(env.photo)
    ensures PhotoUpload(photo, env, publicUrl).result.Err?
    ensures HandleSubmit(form, voice, photo, env, publicUrl).alert ==
              Some(PhotoUploadPrefix + PhotoUpload(photo, env, publicUrl).result.error)
    ensures HandleSubmit(form, voice, photo, env, publicUrl).inserted.None?
  {
  }

  /**
   * A valid form whose row came back with an id sends the confirmation
   * function every field it requires, with the tier's own turnaround, so the
   * function composes an e-mail instead of answering 400.
   */
  lemma ConfirmationBodyAdmissible(form: FormData, voice: Option<Blob>, photo: Option<File>, env: SubmitEnv,
                                   publicUrl: string -> string)
    requires Acceptable(form, voice.Some?)
    requires StorageAccepts(voice, photo, env) && env.insert.Inserted?
    requires ConfirmationEmail.Truthy(env.insert.row.id)
    ensures HandleSubmit(form, voice, photo, env, publicUrl).confirmation.Some?
    ensures ConfirmationEmail.HasRequiredFields(HandleSubmit(form, voice, photo, env, publicUrl).confirmation.value)
    ensures HandleSubmit(form, voice, photo, env, publicUrl).confirmation.value.turnaround ==
              Some(PhoneModels.UrgencyLevels[PhoneModels.TierIndex(form.urgency)].turnaround)
  {
    StorageAcceptsIff(voice, photo, env, publicUrl);
    ValidTextIsNonEmpty(form, voice.Some?);
    var p := RunPipeline(form, voice, photo, env, publicUrl);
    assert p.confirmation == HandleSubmit(form, voice, photo, env, publicUrl).confirmation;
    assert p.confirmation.value == ConfirmationBody(form, p.result.value);
  }

  /** The text fields of a valid form are non-empty. */
  lemma ValidTextIsNonEmpty(form: FormData, hasVoiceRecording: bool)
    requires Acceptable(form, hasVoiceRecording)
    ensures form.fullName != "" && form.email != "" && form.phoneModel != ""
  {
    var a, p, q, e :| MatchesAt(form.email, a, p, q, e);
  }

  /**
   * Jane Doe reports an iPhone 15 at high urgency with no memo and no photo:
   * the stored row is pending with null URLs, and the confirmation call asks
   * for "24-48 hours".
   */
  lemma JaneDoeScenario(publicUrl: string -> string, voiceEnv: UploadEnv, photoEnv: UploadEnv, reply: FunctionReply)
    ensures var form := FormData("Jane Doe", "jane@x.com", "iphone-15", "Screen cracked", High);
            var stored := RepairRequest(Some("0f3c2a9e-5b1d-4c7e-9a26-d41e8b7c6a15"), "Jane Doe", "jane@x.com",
                                        "iphone-15", Some("Screen cracked"), None, None, High, Some("now"), Some(Pending));
            var env := SubmitEnv(voiceEnv, photoEnv, Inserted(stored), reply);
            var run := HandleSubmit(form, None, None, env, publicUrl);
            && run.uploads == []
            && run.inserted == Some(RepairRequest(None, "Jane Doe", "jane@x.com", "iphone-15", Some("Screen cracked"),
                                                  None, None, High, None, Some(Pending)))
            && run.alert.None?
            && run.delivered == Some(stored)
            && run.confirmation.value.requestId == Some("0f3c2a9e-5b1d-4c7e-9a26-d41e8b7c6a15")
            && run.confirmation.value.turnaround == Some("24-48 hours")
  {
    var form := FormData("Jane Doe", "jane@x.com", "iphone-15", "Screen cracked", High);
    var stored := RepairRequest(Some("0f3c2a9e-5b1d-4c7e-9a26-d41e8b7c6a15"), "Jane Doe", "jane@x.com",
                                "iphone-15", Some("Screen cracked"), None, None, High, Some("now"), Some(Pending));
    var env := SubmitEnv(voiceEnv, photoEnv, Inserted(stored), reply);
    JaneDoeFormIsValid(form);
    assert VoiceUpload(None, env, publicUrl) == UploadRun([], Ok(""));
    assert PhotoUpload(None, env, publicUrl) == UploadRun([], Ok(""));
    SuccessDeliversStoredRow(form, None, None, env, publicUrl);
    ConfirmationBodyAdmissible(form, None, None, env, publicUrl);
    assert PhoneModels.UrgencyLevels[PhoneModels.TierIndex(High)].turnaround == "24-48 hours";
  }

  /** The scenario's form passes validation. */
  lemma JaneDoeFormIsValid(form: FormData)
    requires form == FormData("Jane Doe", "jane@x.com", "iphone-15", "Screen cracked", High)
    ensures Acceptable(form, false)
  {
    LooksLikeEmailExamples();
    assert !IsWhitespace(form.fullName[0]);
    assert !IsWhitespace(form.issueDescription[0]);
  }
}
