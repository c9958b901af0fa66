/** The browser facilities both pages use: the local key-value store holding the
    single "contactInfo" entry, and the two routes of the application.
    JSON text is modelled abstractly: serialising a record and parsing it back is
    the identity on flat string records, and any other stored text is either the
    empty string or text that does not parse. */
module Browser {
  import opened ContactRecord

  /** The key both pages read and the form writes. */
  const ContactInfoKey := "contactInfo"

  /** What `localStorage.getItem` can hand back, when the key is set. */
  datatype StoredValue =
    | EmptyString             // the key holds ""
    | Serialized(record: Contact)  // JSON text of a flat string record
    | Unparseable             // text on which `JSON.parse` throws

  /** How a page's mount handler ends: normally, or with the exception that an
      unparseable stored value raises and nothing catches. */
  datatype Completion = Completed | Threw

  /** The two routes of the application. */
  datatype Route = Home | EditForm

  /** `JSON.stringify(record)`. */
  function Stringify(c: Contact): (r: StoredValue)
    ensures r != EmptyString && r != Unparseable
  {
    Serialized(c)
  }

  /** `if (storedData)`: null (key unset) and "" are falsy, any other text is truthy. */
  predicate Truthy(slot: Option<StoredValue>): (r: bool)
    ensures slot == None ==> !r
    ensures slot == Some(EmptyString) ==> !r
    ensures slot == Some(Unparseable) ==> r
    ensures forall c :: slot == Some(Serialized(c)) ==> r
  {
    slot.Some? && slot.value != EmptyString
  }

  /** What a mount handler finds in the slot after the truthiness test and
      `JSON.parse`. */
  datatype ReadResult = NoData | Parsed(record: Contact) | ParseFailed

  function ReadSlot(slot: Option<StoredValue>): (r: ReadResult)
    ensures r.NoData? <==> !Truthy(slot)
    ensures r.Parsed? <==> slot.Some? && slot.value.Serialized?
    ensures r.Parsed? ==> r.record == slot.value.record
    ensures r.ParseFailed? <==> slot == Some(Unparseable)
  {
    if !Truthy(slot) then NoData
    else
      match slot.value
      case Serialized(c) => Parsed(c)
      case _ => ParseFailed
  }

  /** Writing a record and reading the slot back yields that record. */
  lemma StringifyThenRead(c: Contact)
    ensures ReadSlot(Some(Stringify(c))) == Parsed(c)
  {
  }

  /** The browser's local storage, reduced to its one entry. */
  class LocalStorage {
    /** The value under "contactInfo"; `None` while the key is unset. */
    var contactInfo: Option<StoredValue>

    /** A store in which the key has never been written. */
    constructor ()
      ensures contactInfo == None
    {
      contactInfo := None;
    }

    /** `localStorage.setItem("contactInfo", v)`: overwrites whatever was there. */
    method SetItem(v: StoredValue)
      modifies this
      ensures contactInfo == Some(v)
    {
      contactInfo := Some(v);
    }
  }
}
