/** The display page: on mount it loads the stored record, keeps the title and
    full name for the footer, and hands the record's vCard to the QR encoder;
    it renders six detail lines, the QR image or its placeholder, and a footer
    label. */
module HomePage {
  import opened ContactRecord
  import opened Browser
  import VCard

  const FooterPlaceholder := "Press Edit Button"

  /** The footer text: title and full name separated by a space when both are
      set, otherwise whichever is set, otherwise an invitation to edit. */
  function FooterLabel(title: string, fullName: string): (r: string)
    ensures r != ""
    ensures title != "" ==> title <= r
    ensures fullName != "" ==> |fullName| <= |r| && r[|r| - |fullName|..] == fullName
    ensures title != "" && fullName != "" ==> |r| == |title| + 1 + |fullName| && r[|title|] == ' '
    ensures title != "" && fullName == "" ==> r == title
    ensures title == "" && fullName != "" ==> r == fullName
    ensures title == "" && fullName == "" ==> r == FooterPlaceholder
  {
    if title != "" && fullName != "" then title + " " + fullName
    else if title != "" then title
    else if fullName != "" then fullName
    else FooterPlaceholder
  }

  /** One entry of the page's detail list: a label, the record field it shows
      and the text shown when that field is empty or absent. */
  datatype Detail = Detail(caption: string, key: Field, placeholder: string)

  const Details: seq<Detail> := [
    Detail("Tel", MobileNumber, "Mobile Number"),
    Detail("Email", Email, "Email Address"),
    Detail("LinkedIn", LinkedIn, "LinkedIn"),
    Detail("Facebook", Facebook, "Facebook"),
    Detail("Instagram", Instagram, "Instagram"),
    Detail("X", X, "X")
  ]

  /** `contactData?.[key]`: absent when no record has been loaded. */
  function Lookup(data: Option<Contact>, key: Field): (r: Option<string>)
    ensures data.None? ==> r == None
    ensures data.Some? ==> r == data.value.Get(key)
  {
    if data.Some? then data.value.Get(key) else None
  }

  /** The value a detail line shows: the field, or its placeholder when the
      field is empty, absent or there is no record. */
  function Shown(d: Detail, data: Option<Contact>): (r: string)
    ensures data.Some? && data.value.Get(d.key).Some? && data.value.Get(d.key).value != "" ==>
              r == data.value.Get(d.key).value
    ensures data.None? || data.value.Get(d.key) in {None, Some("")} ==> r == d.placeholder
  {
    OrElse(Lookup(data, d.key), d.placeholder)
  }

  /** `fields.map(...)`: one `caption: value` line per detail, in order. */
  function DetailLines(data: Option<Contact>): (r: seq<string>)
    ensures |r| == |Details|
  {
    seq(|Details|, i requires 0 <= i < |Details| => Details[i].caption + ": " + Shown(Details[i], data))
  }

  /** The six detail lines are Tel, Email, LinkedIn, Facebook, Instagram and X,
      each its caption, a colon and a space, then the field's value or, when
      that is empty or absent, the field's placeholder. */
  lemma DetailLinesShape(data: Option<Contact>)
    ensures var r := DetailLines(data);
      && |r| == 6
      && r[0] == "Tel" + ": " + OrElse(Lookup(data, MobileNumber), "Mobile Number")
      && r[1] == "Email" + ": " + OrElse(Lookup(data, Email), "Email Address")
      && r[2] == "LinkedIn" + ": " + OrElse(Lookup(data, LinkedIn), "LinkedIn")
      && r[3] == "Facebook" + ": " + OrElse(Lookup(data, Facebook), "Facebook")
      && r[4] == "Instagram" + ": " + OrElse(Lookup(data, Instagram), "Instagram")
      && r[5] == "X" + ": " + OrElse(Lookup(data, X), "X")
  {
  }

  /** With no record loaded every detail line shows its placeholder. */
  lemma DetailLinesWithoutData()
    ensures forall i :: 0 <= i < |Details| ==>
      DetailLines(None)[i] == Details[i].caption + ": " + Details[i].placeholder
  {
  }

  /** A present-but-empty field and an absent one are shown alike. */
  lemma DetailLinesAbsentIsEmpty(c: Contact, f: Field)
    ensures DetailLines(Some(c.WithValue(f, None))) == DetailLines(Some(c.WithValue(f, Some(""))))
  {
  }

  /** The title and full name never appear among the detail lines. */
  lemma DetailLinesIgnoreNames(c: Contact, f: Field, v: Option<string>)
    requires f in {Title, FullName}
    ensures DetailLines(Some(c.WithValue(f, v))) == DetailLines(Some(c))
  {
  }

  /** What the QR area shows. */
  datatype QrView = QrImage(src: string) | QrPlaceholder

  /** The image once a data URL has arrived, the "QR Code" placeholder before. */
  function QrArea(qrCodeUrl: string): (r: QrView)
    ensures r == QrPlaceholder <==> qrCodeUrl == ""
    ensures r.QrImage? ==> r.src == qrCodeUrl
  {
    if qrCodeUrl != "" then QrImage(qrCodeUrl) else QrPlaceholder
  }

  /** How the mount handler ends: nothing stored, a QR encoding requested for
      the given vCard text, or the exception raised by an unparseable value. */
  datatype MountEffect = NothingStored | EncodeRequested(vCard: string) | MountThrew

  /** The display page's component state. */
  class Page {
    const storage: LocalStorage
    var qrCodeUrl: string
    var fullName: string
    var title: string
    var contactData: Option<Contact>

    /** The state before the mount handler has run. */
    constructor (storage: LocalStorage)
      ensures this.storage == storage
      ensures qrCodeUrl == "" && fullName == "" && title == "" && contactData == None
    {
      this.storage := storage;
      qrCodeUrl, fullName, title, contactData := "", "", "", None;
    }

    /** The mount effect: with a truthy stored value, parse it, keep the record
        and its title and full name, and ask for the QR encoding of its vCard;
        with nothing stored, change nothing. An unparseable value throws before
        any state is set. */
    method Mount() returns (effect: MountEffect)
      modifies this
      ensures qrCodeUrl == old(qrCodeUrl)
      ensures match ReadSlot(storage.contactInfo)
        case NoData =>
          && effect == NothingStored
          && contactData == old(contactData) && title == old(title) && fullName == old(fullName)
        case ParseFailed =>
          && effect == MountThrew
          && contactData == old(contactData) && title == old(title) && fullName == old(fullName)
        case Parsed(c) =>
          && effect == EncodeRequested(VCard.VCard(c))
          && contactData == Some(c) && title == Text(c.title) && fullName == Text(c.fullName)
    {
      match ReadSlot(storage.contactInfo)
      case NoData =>
        effect := NothingStored;
      case ParseFailed =>
        effect := MountThrew;
      case Parsed(c) =>
        contactData := Some(c);
        title := Text(c.title);
        fullName := Text(c.fullName);
        effect := EncodeRequested(VCard.VCard(c));
    }

    /** The QR encoder's callback: on error nothing changes (the error is only
        logged); otherwise the data URL is kept. */
    method OnQrEncoded(failed: bool, url: string)
      modifies this
      ensures qrCodeUrl == if failed then old(qrCodeUrl) else url
      ensures contactData == old(contactData) && title == old(title) && fullName == old(fullName)
    {
      if !failed {
        qrCodeUrl := url;
      }
    }

    /** The Edit button. */
    method Edit() returns (next: Route)
      ensures next == EditForm
    {
      next := EditForm;
    }
  }

  /** A page that has found nothing stored shows every placeholder: the detail
      lines' placeholders, the "QR Code" placeholder and "Press Edit Button". */
  lemma EmptyPageShowsPlaceholders()
    ensures FooterLabel("", "") == "Press Edit Button"
    ensures QrArea("") == QrPlaceholder
    ensures forall i :: 0 <= i < |Details| ==>
      DetailLines(None)[i] == Details[i].caption + ": " + Details[i].placeholder
  {
    DetailLinesWithoutData();
  }
}
