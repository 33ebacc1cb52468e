/**
 * The "Join Now" section and its modal sign-up form: a draft of three
 * fields, the modal flag and the submission-in-flight flag, updated by the
 * component's event handlers.
 */
module CTA {
  import EmailRegex

  /** Every keystroke keeps at most this many characters of a field. */
  const MaxFieldLength: nat := 100

  /** `value.slice(0, 100)`: the first min(100, |value|) characters of the typed value. */
  function Truncated(value: string): (r: string)
    ensures |r| == if |value| < MaxFieldLength then |value| else MaxFieldLength
    ensures r == value[..|r|]
  {
    if |value| <= MaxFieldLength then value else value[..MaxFieldLength]
  }

  /** The `name` attributes of the three inputs. */
  datatype FieldName = Name | Email | Company

  /** The `formData` state of the form. */
  datatype Draft = Draft(name: string, email: string, company: string)
  {
    function Get(field: FieldName): string
    {
      match field
      case Name => name
      case Email => email
      case Company => company
    }

    /** `{ ...prev, [field]: value }`: the named field replaced, the others kept. */
    function With(field: FieldName, value: string): (d: Draft)
      ensures d.Get(field) == value
      ensures forall other :: other != field ==> d.Get(other) == Get(other)
    {
      match field
      case Name => this.(name := value)
      case Email => this.(email := value)
      case Company => this.(company := value)
    }

    /** No field is longer than a keystroke can leave it. */
    predicate WithinLimit()
    {
      |name| <= MaxFieldLength && |email| <= MaxFieldLength && |company| <= MaxFieldLength
    }
  }

  const EmptyDraft := Draft("", "", "")

  /** What the submit button shows: its `disabled` attribute and its label. */
  datatype SubmitButton = SubmitButton(disabled: bool, caption: string)

  /** The submit button is disabled, and says so, exactly while a submission is in flight. */
  function SubmitButtonFor(isSubmitting: bool): (b: SubmitButton)
    ensures b.disabled <==> isSubmitting
    ensures b.caption == "Submitting..." <==> isSubmitting
    ensures b.caption == "Submit Request" <==> !isSubmitting
  {
    if isSubmitting then SubmitButton(true, "Submitting...") else SubmitButton(false, "Submit Request")
  }

  class JoinForm {
    var showModal: bool
    var formData: Draft
    var isSubmitting: bool

    /** Every field of the draft has been through `Truncated` (or is empty). */
    ghost predicate Valid()
      reads this
    {
      formData.WithinLimit()
    }

    constructor ()
      ensures Valid()
      ensures !showModal && !isSubmitting && formData == EmptyDraft
    {
      showModal := false;
      formData := EmptyDraft;
      isSubmitting := false;
    }

    /** The "Join Now" button. */
    method OpenModal()
      requires Valid()
      modifies this
      ensures Valid()
      ensures showModal
      ensures formData == old(formData) && isSubmitting == old(isSubmitting)
    {
      showModal := true;
    }

    /** The close button of the modal: the draft is kept for the next opening. */
    method CloseModal()
      requires Valid()
      modifies this
      ensures Valid()
      ensures !showModal
      ensures formData == old(formData) && isSubmitting == old(isSubmitting)
    {
      showModal := false;
    }

    /** `handleInputChange`, fired by an input of the open modal: only the named field changes, to the truncated value. */
    method HandleInputChange(field: FieldName, value: string)
      requires Valid() && showModal
      modifies this
      ensures Valid()
      ensures formData == old(formData).With(field, Truncated(value))
      ensures formData.Get(field) == Truncated(value)
      ensures forall other :: other != field ==> formData.Get(other) == old(formData).Get(other)
      ensures showModal == old(showModal) && isSubmitting == old(isSubmitting)
    {
      formData := formData.With(field, Truncated(value));
    }

    /**
     * The synchronous part of `handleSubmit`: raise `isSubmitting`, test the
     * email; a failing test throws, is caught, and the `finally` lowers the
     * flag again with the draft and the modal untouched. A passing test
     * leaves the submission pending on its timer. The form exists only
     * while the modal is open, and its button is disabled while a
     * submission is pending, so none starts then.
     */
    method Submit() returns (pending: bool)
      requires Valid() && showModal && !isSubmitting
      modifies this
      ensures Valid()
      ensures pending <==> EmailRegex.Matches(old(formData).email)
      ensures isSubmitting == pending
      ensures formData == old(formData) && showModal == old(showModal)
    {
      isSubmitting := true;
      var ok := EmailRegex.Test(formData.email);
      if !ok {
        isSubmitting := false;
      }
      pending := ok;
    }

    /** The end of a pending submission: close the modal, reset the draft, lower the flag. */
    method CompletePendingSubmit()
      requires Valid() && isSubmitting
      modifies this
      ensures Valid()
      ensures !showModal && !isSubmitting && formData == EmptyDraft
    {
      showModal := false;
      formData := EmptyDraft;
      isSubmitting := false;
    }

    /** `handleSubmit` with the one-second delay taken as one atomic step. */
    method SubmitAndWait() returns (accepted: bool)
      requires Valid() && showModal && !isSubmitting
      modifies this
      ensures Valid() && !isSubmitting
      ensures accepted <==> EmailRegex.Matches(old(formData).email)
      ensures accepted ==> !showModal && formData == EmptyDraft
      ensures !accepted ==> showModal == old(showModal) && formData == old(formData)
    {
      accepted := Submit();
      if accepted {
        CompletePendingSubmit();
      }
    }
  }
}
