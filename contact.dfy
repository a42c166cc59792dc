/**
 * The contact page (pages/contact.tsx): a three-field form whose submissions
 * are appended to the `contact_submissions` log in local storage, with a
 * success or error toast.
 */
module Contact {
  import opened Wrappers
  import opened SampleData

  const SubmissionsKey := "contact_submissions"
  const SuccessMessage := "Thank you for your message! I'll get back to you soon."
  const ErrorMessage := "Sorry, there was an error sending your message. Please try again."

  datatype FormData = FormData(name: string, email: string, message: string)

  const EmptyForm := FormData("", "", "")

  /** The form's three named inputs. */
  datatype FormField = Name | Email | Message

  /** One logged submission: the form fields plus the ISO timestamp of the submit. */
  datatype Submission = Submission(name: string, email: string, message: string, timestamp: string)

  datatype ToastKind = Success | Error

  /** `{...prev, [name]: value}`: the named field replaced, the other two kept. */
  function WithField(f: FormData, field: FormField, value: string): (r: FormData)
    ensures field == Name ==> r.name == value && r.email == f.email && r.message == f.message
    ensures field == Email ==> r.email == value && r.name == f.name && r.message == f.message
    ensures field == Message ==> r.message == value && r.name == f.name && r.email == f.email
  {
    match field
    case Name => f.(name := value)
    case Email => f.(email := value)
    case Message => f.(message := value)
  }

  /** `{...formData, timestamp}`. */
  function Record(f: FormData, timestamp: string): (s: Submission)
    ensures s.name == f.name && s.email == f.email && s.message == f.message && s.timestamp == timestamp
  {
    Submission(f.name, f.email, f.message, timestamp)
  }

  /**
   * `JSON.parse(localStorage.getItem(key) || '[]')`: a missing or empty
   * entry is the empty log; otherwise the parsed log, or `None` when the
   * text does not parse as a list of submissions (the parse throws).
   */
  function StoredLog(items: map<string, string>, codec: Codec<seq<Submission>>): (r: Option<seq<Submission>>)
    ensures !Present(items, SubmissionsKey) ==> r == Some([])
    ensures Present(items, SubmissionsKey) ==> r == codec.decode(items[SubmissionsKey])
  {
    if Present(items, SubmissionsKey) then codec.decode(items[SubmissionsKey]) else Some([])
  }

  /**
   * The log is append-only: writing the old log plus one record makes the
   * stored log exactly one longer, with every earlier record in place and the
   * new one last.
   */
  lemma AppendOnly(items: map<string, string>, codec: Codec<seq<Submission>>, log: seq<Submission>, s: Submission)
    requires Lawful(codec)
    ensures var after := StoredLog(items[SubmissionsKey := codec.encode(log + [s])], codec);
      after.Some? && |after.value| == |log| + 1 && after.value[..|log|] == log && after.value[|log|] == s
  {
    assert (log + [s])[..|log|] == log;
  }

  /** Two successful submits log their records in submission order after the earlier ones. */
  lemma TwoSubmitsInOrder(items: map<string, string>, codec: Codec<seq<Submission>>, log: seq<Submission>, s1: Submission, s2: Submission)
    requires Lawful(codec) && StoredLog(items, codec) == Some(log)
    ensures var items1 := items[SubmissionsKey := codec.encode(StoredLog(items, codec).value + [s1])];
      var items2 := items1[SubmissionsKey := codec.encode(StoredLog(items1, codec).value + [s2])];
      StoredLog(items2, codec) == Some(log + [s1, s2])
  {
    var items1 := items[SubmissionsKey := codec.encode(log + [s1])];
    assert StoredLog(items1, codec) == Some(log + [s1]);
    assert log + [s1] + [s2] == log + [s1, s2];
  }

  /** The contact page's state. */
  class ContactPage {
    var formData: FormData
    var isSubmitting: bool
    var showToast: bool
    var toastMessage: string
    var toastKind: ToastKind

    constructor ()
      ensures formData == EmptyForm && !isSubmitting && !showToast && toastMessage == "" && toastKind == Success
    {
      formData := EmptyForm;
      isSubmitting := false;
      showToast := false;
      toastMessage := "";
      toastKind := Success;
    }

    /** `handleInputChange`: only the named field changes. */
    method HandleInputChange(field: FormField, value: string)
      modifies this`formData
      ensures formData == WithField(old(formData), field, value)
    {
      formData := WithField(formData, field, value);
    }

    /**
     * `handleSubmit` up to its `await`: submitting starts. `submitted` is
     * the form the handler's closure holds.
     */
    method BeginSubmit() returns (submitted: FormData)
      modifies this`isSubmitting
      ensures isSubmitting && submitted == formData
    {
      isSubmitting := true;
      submitted := formData;
    }

    /**
     * `handleSubmit` after its `await`: reads the log, appends the
     * submitted form stamped with `timestamp` and writes the log back. On
     * success the toast is the thank-you message and the form is emptied;
     * when the log does not parse or the write is refused, the toast is the
     * error message, the form is kept and the store is unchanged.
     * Submitting ends in every case.
     */
    method FinishSubmit(submitted: FormData, store: LocalStore, codec: Codec<seq<Submission>>, timestamp: string)
      requires store.available
      modifies this`formData, this`isSubmitting, this`showToast, this`toastMessage, this`toastKind, store
      ensures !isSubmitting && showToast
      ensures StoredLog(old(store.items), codec).Some? && SubmissionsKey !in store.refused ==>
        store.items == old(store.items)[SubmissionsKey := codec.encode(StoredLog(old(store.items), codec).value + [Record(submitted, timestamp)])] &&
        toastKind == Success && toastMessage == SuccessMessage && formData == EmptyForm
      ensures StoredLog(old(store.items), codec).None? || SubmissionsKey in store.refused ==>
        store.items == old(store.items) &&
        toastKind == Error && toastMessage == ErrorMessage && formData == old(formData)
    {
      var log := StoredLog(store.items, codec);
      var ok := false;
      if log.Some? {
        ok := store.SetItem(SubmissionsKey, codec.encode(log.value + [Record(submitted, timestamp)]));
      }
      if ok {
        toastMessage := SuccessMessage;
        toastKind := Success;
        showToast := true;
        formData := EmptyForm;
      } else {
        toastMessage := ErrorMessage;
        toastKind := Error;
        showToast := true;
      }
      isSubmitting := false;
    }
  }
}
