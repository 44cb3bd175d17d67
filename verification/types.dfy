/**
 * The records the form, the summary page and the store exchange, and the
 * browser payload types the form hands to storage.
 */
module Types {
  import opened Base

  /** The three urgency tiers of a repair request. */
  datatype Urgency = Low | Medium | High {

    /** The tier's wire and storage spelling. */
    function Value(): string {
      match this
      case Low => "low"
      case Medium => "medium"
      case High => "high"
    }
  }

  /** The urgency tier a string names, if any. */
  function ParseUrgency(s: string): (u: Option<Urgency>)
    ensures u.Some? ==> u.value.Value() == s
    ensures u.None? <==> s != "low" && s != "medium" && s != "high"
  {
    if s == "low" then Some(Low)
    else if s == "medium" then Some(Medium)
    else if s == "high" then Some(High)
    else None
  }

  /** Spelling a tier and reading it back gives the same tier. */
  lemma ParseUrgencyValue(u: Urgency)
    ensures ParseUrgency(u.Value()) == Some(u)
  {
  }

  /** The processing status of a stored request. */
  datatype Status = Pending | InProgress | Completed {

    /** The status's storage spelling. */
    function Value(): string {
      match this
      case Pending => "pending"
      case InProgress => "in_progress"
      case Completed => "completed"
    }
  }

  /** The status a string names, if any. */
  function ParseStatus(s: string): (st: Option<Status>)
    ensures st.Some? ==> st.value.Value() == s
    ensures st.None? <==> s != "pending" && s != "in_progress" && s != "completed"
  {
    if s == "pending" then Some(Pending)
    else if s == "in_progress" then Some(InProgress)
    else if s == "completed" then Some(Completed)
    else None
  }

  /** Spelling a status and reading it back gives the same status. */
  lemma ParseStatusValue(st: Status)
    ensures ParseStatus(st.Value()) == Some(st)
  {
  }

  /**
   * A row of the `repair_requests` table (columns `id`, `full_name`, `email`,
   * `phone_model`, `issue_description`, `voice_recording_url`, `photo_url`,
   * `urgency`, `created_at`, `status`).  `id` and `createdAt` are assigned by
   * the store; the optional columns hold `None` for a missing or null value.
   */
  datatype RepairRequest = RepairRequest(
    id: Option<string>,
    fullName: string,
    email: string,
    phoneModel: string,
    issueDescription: Option<string>,
    voiceRecordingUrl: Option<string>,
    photoUrl: Option<string>,
    urgency: Urgency,
    createdAt: Option<string>,
    status: Option<Status>)

  /** A row of the urgency reference table. */
  datatype UrgencyLevel = UrgencyLevel(
    value: Urgency,
    displayLabel: string,
    description: string,
    turnaround: string,
    color: string,
    bgColor: string)

  /** A browser `Blob`: its bytes and its declared MIME type ("" when unknown). */
  datatype Blob = Blob(data: seq<byte>, mime: string)

  /** A browser `File`: a named `Blob`. */
  datatype File = File(name: string, data: seq<byte>, mime: string) {

    function AsBlob(): Blob {
      Blob(data, mime)
    }
  }
}
