/** The edit form: an eight-field draft that starts empty, is replaced by the
    stored record on mount, is edited one field at a time, and is written over
    the single "contactInfo" entry on submit. */
module FormPage {
  import opened ContactRecord
  import opened Browser

  /** The form component's state: its draft, and the store it reads and writes. */
  class Form {
    const storage: LocalStorage
    var draft: Contact

    /** The draft before the mount handler has run: all eight fields empty. */
    constructor (storage: LocalStorage)
      ensures this.storage == storage
      ensures draft == EmptyDraft()
    {
      this.storage := storage;
      draft := EmptyDraft();
    }

    /** The mount effect: when the stored value is truthy it is parsed and
        becomes the draft; when it is absent or empty the draft stays; when it
        does not parse the handler throws and the draft stays. Storage is only
        read. */
    method Mount() returns (outcome: Completion)
      modifies this
      ensures storage.contactInfo == old(storage.contactInfo)
      ensures match ReadSlot(storage.contactInfo)
        case NoData => outcome == Completed && draft == old(draft)
        case Parsed(c) => outcome == Completed && draft == c
        case ParseFailed => outcome == Threw && draft == old(draft)
    {
      match ReadSlot(storage.contactInfo)
      case NoData =>
        outcome := Completed;
      case Parsed(c) =>
        draft := c;
        outcome := Completed;
      case ParseFailed =>
        outcome := Threw;
    }

    /** An input named `name` reports `value`: that field of the draft becomes
        `value` and every other field keeps its value. */
    method HandleChange(name: Field, value: string)
      modifies this
      ensures draft == old(draft).With(name, value)
      ensures draft.Get(name) == Some(value)
      ensures forall g :: g != name ==> draft.Get(g) == old(draft).Get(g)
      ensures storage.contactInfo == old(storage.contactInfo)
    {
      draft := draft.With(name, value);
    }

    /** Submit: the draft overwrites whatever the store held, the draft itself
        is kept, and the page navigates home. */
    method HandleSubmit() returns (next: Route)
      modifies storage
      ensures storage.contactInfo == Some(Stringify(draft))
      ensures ReadSlot(storage.contactInfo) == Parsed(draft)
      ensures draft == old(draft)
      ensures next == Home
    {
      storage.SetItem(Stringify(draft));
      StringifyThenRead(draft);
      next := Home;
    }

    /** Cancel: navigate home, touching neither the store nor the draft. */
    method Cancel() returns (next: Route)
      ensures storage.contactInfo == old(storage.contactInfo)
      ensures draft == old(draft)
      ensures next == Home
    {
      next := Home;
    }
  }

  /** Submitting and opening the form again gives back the submitted draft. */
  method SubmitThenReopen(form: Form) returns (reopened: Form)
    modifies form.storage
    ensures reopened.storage == form.storage
    ensures reopened.draft == form.draft
    ensures form.storage.contactInfo == Some(Stringify(form.draft))
  {
    var _ := form.HandleSubmit();
    reopened := new Form(form.storage);
    var outcome := reopened.Mount();
    assert outcome == Completed;
  }
}
